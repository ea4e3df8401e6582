/** The detail view of one post (src/components/PostDetail.tsx): the author's
    avatar gradient, the media block chosen by the post's media, and the body
    split into paragraphs with `String.prototype.split`. The date line uses
    the host's locale and is not modelled. */
module PostDetail {
  import opened Wrappers
  import opened Data
  import JsNumbers

  /** The author avatar backgrounds, picked by the author's position in the
      user list. */
  const Gradients: seq<string> := [
    "from-rose-400 to-orange-300",
    "from-violet-400 to-purple-300",
    "from-cyan-400 to-blue-300",
    "from-emerald-400 to-teal-300",
    "from-amber-400 to-yellow-300"
  ]

  /** The separator between paragraphs: one blank line. */
  const ParagraphBreak: string := "\n\n"

  /** `sep` occurs in `s` starting at position `i`. */
  predicate OccursAt(s: string, sep: string, i: int)
  {
    0 <= i && i + |sep| <= |s| && s[i..i + |sep|] == sep
  }

  ghost predicate Contains(s: string, sep: string)
  {
    exists i :: OccursAt(s, sep, i)
  }

  /** The first position at or after `from` where `sep` occurs, or -1. */
  function IndexOfFrom(s: string, sep: string, from: nat): (r: int)
    requires from <= |s|
    ensures r == -1 || (from <= r && OccursAt(s, sep, r))
    ensures forall j :: from <= j && (r == -1 || j < r) ==> !OccursAt(s, sep, j)
    decreases |s| - from
  {
    if from + |sep| > |s| then -1
    else if s[from..from + |sep|] == sep then from
    else if from == |s| then -1
    else IndexOfFrom(s, sep, from + 1)
  }

  /** The first position of `sep` in `s`, or -1 if there is none. */
  function IndexOf(s: string, sep: string): (r: int)
    ensures r == -1 <==> !Contains(s, sep)
    ensures r != -1 ==> OccursAt(s, sep, r) && forall j :: 0 <= j < r ==> !OccursAt(s, sep, j)
  {
    IndexOfFrom(s, sep, 0)
  }

  /** JavaScript's string split for a non-empty separator: the pieces between
      the occurrences of `sep` found left to right without overlap. */
  function Split(s: string, sep: string): (parts: seq<string>)
    requires |sep| > 0
    ensures |parts| >= 1
    decreases |s|
  {
    var i := IndexOf(s, sep);
    if i == -1 then [s] else [s[..i]] + Split(s[i + |sep|..], sep)
  }

  /** The pieces glued back together with `sep` between neighbours. */
  function Join(parts: seq<string>, sep: string): string
  {
    if |parts| == 0 then ""
    else if |parts| == 1 then parts[0]
    else parts[0] + sep + Join(parts[1..], sep)
  }

  /** How many times `sep` occurs in `s`, counting left to right without
      overlap: a scan one character at a time that skips past each match. */
  function Occurrences(s: string, sep: string): nat
    requires |sep| > 0
    decreases |s|
  {
    if |s| < |sep| then 0
    else if s[..|sep|] == sep then 1 + Occurrences(s[|sep|..], sep)
    else Occurrences(s[1..], sep)
  }

  /** Joining the pieces with the separator gives back the text exactly. */
  lemma {:induction false} JoinSplit(s: string, sep: string)
    requires |sep| > 0
    ensures Join(Split(s, sep), sep) == s
    decreases |s|
  {
    var i := IndexOf(s, sep);
    if i != -1 {
      var rest := s[i + |sep|..];
      JoinSplit(rest, sep);
      assert Split(s, sep) == [s[..i]] + Split(rest, sep);
      assert s == s[..i] + sep + rest by {
        assert s[i..i + |sep|] == sep;
      }
    }
  }

  /** Scanning past a stretch with no match does not change the count. */
  lemma {:induction false} OccurrencesSkip(s: string, sep: string, k: nat)
    requires |sep| > 0 && k <= |s|
    requires forall j :: 0 <= j < k ==> !OccursAt(s, sep, j)
    ensures Occurrences(s, sep) == Occurrences(s[k..], sep)
    decreases k
  {
    if k > 0 {
      assert !OccursAt(s, sep, 0);
      if |s| >= |sep| {
        assert s[..|sep|] != sep by { assert s[0..|sep|] == s[..|sep|]; }
        assert Occurrences(s, sep) == Occurrences(s[1..], sep);
        forall j | 0 <= j < k - 1
          ensures !OccursAt(s[1..], sep, j)
        {
          assert !OccursAt(s, sep, j + 1);
          if j + |sep| <= |s[1..]| {
            assert s[1..][j..j + |sep|] == s[j + 1..j + 1 + |sep|];
          }
        }
        OccurrencesSkip(s[1..], sep, k - 1);
        assert s[1..][k - 1..] == s[k..];
      } else {
        assert Occurrences(s[k..], sep) == 0;
      }
    }
  }

  /** No separator in `s` means a count of zero. */
  lemma NoOccurrences(s: string, sep: string)
    requires |sep| > 0 && !Contains(s, sep)
    ensures Occurrences(s, sep) == 0
  {
    OccurrencesSkip(s, sep, |s|);
    assert s[|s|..] == "";
  }

  /** There is one more piece than there are separators in the text. */
  lemma {:induction false} SplitCount(s: string, sep: string)
    requires |sep| > 0
    ensures |Split(s, sep)| == Occurrences(s, sep) + 1
    decreases |s|
  {
    var i := IndexOf(s, sep);
    if i == -1 {
      NoOccurrences(s, sep);
    } else {
      var rest := s[i + |sep|..];
      SplitCount(rest, sep);
      OccurrencesSkip(s, sep, i);
      var t := s[i..];
      assert t[..|sep|] == sep;
      assert t[|sep|..] == rest;
    }
  }

  /** No piece contains the separator. */
  lemma {:induction false} SplitPartsLackSeparator(s: string, sep: string)
    requires |sep| > 0
    ensures forall k :: 0 <= k < |Split(s, sep)| ==> !Contains(Split(s, sep)[k], sep)
    decreases |s|
  {
    var i := IndexOf(s, sep);
    if i != -1 {
      var rest := s[i + |sep|..];
      SplitPartsLackSeparator(rest, sep);
      var head := s[..i];
      forall j | OccursAt(head, sep, j)
        ensures false
      {
        assert head[j..j + |sep|] == s[j..j + |sep|];
        assert OccursAt(s, sep, j);
      }
      assert Split(s, sep) == [head] + Split(rest, sep);
    }
  }

  /** Text without the separator, the empty text included, is one piece. */
  lemma SplitWithoutSeparator(s: string, sep: string)
    requires |sep| > 0 && !Contains(s, sep)
    ensures Split(s, sep) == [s]
  {
  }

  /** The paragraphs of a post body. */
  function Paragraphs(content: string): (ps: seq<string>)
    ensures Join(ps, ParagraphBreak) == content
    ensures |ps| == Occurrences(content, ParagraphBreak) + 1
    ensures forall k :: 0 <= k < |ps| ==> !Contains(ps[k], ParagraphBreak)
  {
    JoinSplit(content, ParagraphBreak);
    SplitCount(content, ParagraphBreak);
    SplitPartsLackSeparator(content, ParagraphBreak);
    Split(content, ParagraphBreak)
  }

  /** The media part of the view. */
  datatype MediaBlock =
    | NoMedia
    | ImageBlock(src: string, alt: string)
    | VideoBlock(src: string, poster: Option<string>)

  /** No block without media; an image for an image; anything else plays as
      a video, with the thumbnail (if any) as its poster frame. */
  function MediaFor(post: Post): (m: MediaBlock)
    ensures m.NoMedia? <==> post.media.None?
    ensures m.ImageBlock? <==> post.media.Some? && post.media.value.mediaType == Image
    ensures m.ImageBlock? ==> m.src == post.media.value.url && m.alt == post.title
    ensures m.VideoBlock? ==> m.src == post.media.value.url && m.poster == post.media.value.thumbnail
  {
    match post.media
    case None => NoMedia
    case Some(media) =>
      if media.mediaType == Image then ImageBlock(media.url, post.title)
      else VideoBlock(media.url, media.thumbnail)
  }

  /** What the detail view shows, top to bottom. */
  datatype DetailLayout = DetailLayout(
    title: string,
    avatarGradient: Option<string>,
    avatar: string,
    authorName: string,
    media: MediaBlock,
    paragraphs: seq<string>)

  function AvatarGradient(authorIndex: int): Option<string>
  {
    JsNumbers.AtRem(Gradients, authorIndex)
  }

  function View(post: Post, author: User, authorIndex: int): (r: DetailLayout)
    ensures Join(r.paragraphs, ParagraphBreak) == post.content
    ensures |r.paragraphs| == Occurrences(post.content, ParagraphBreak) + 1
    ensures forall k :: 0 <= k < |r.paragraphs| ==> !Contains(r.paragraphs[k], ParagraphBreak)
    ensures r.media.NoMedia? <==> post.media.None?
    ensures r.media.ImageBlock? <==> post.media.Some? && post.media.value.mediaType == Image
    ensures r.media.ImageBlock? ==> r.media.src == post.media.value.url && r.media.alt == post.title
    ensures r.media.VideoBlock? ==> r.media.src == post.media.value.url && r.media.poster == post.media.value.thumbnail
    ensures authorIndex >= 0 ==> r.avatarGradient.Some?
    ensures r.title == post.title && r.authorName == author.name
  {
    DetailLayout(post.title, AvatarGradient(authorIndex), author.avatar, author.name, MediaFor(post), Paragraphs(post.content))
  }

  /** One step of the split: the first piece ends at the first match. */
  lemma SplitAtFirst(s: string, sep: string, i: nat)
    requires |sep| > 0 && OccursAt(s, sep, i)
    requires forall j :: 0 <= j < i ==> !OccursAt(s, sep, j)
    ensures Split(s, sep) == [s[..i]] + Split(s[i + |sep|..], sep)
  {
    assert IndexOf(s, sep) == i;
  }

  /** A body with one blank line has two paragraphs. */
  lemma TwoParagraphs()
    ensures Split("b\n\nc", ParagraphBreak) == ["b", "c"]
  {
    var t := "b\n\nc";
    assert t[0..2][0] != ParagraphBreak[0] && t[1..3] == ParagraphBreak;
    SplitAtFirst(t, ParagraphBreak, 1);
    assert t[3..] == "c" && t[..1] == "b";
    SplitWithoutSeparator("c", ParagraphBreak);
  }

  /** A body with two blank lines has three paragraphs. */
  lemma ThreeParagraphs()
    ensures Paragraphs("a\n\nb\n\nc") == ["a", "b", "c"]
  {
    var s := "a\n\nb\n\nc";
    assert s[0..2][0] != ParagraphBreak[0] && s[1..3] == ParagraphBreak;
    SplitAtFirst(s, ParagraphBreak, 1);
    assert s[3..] == "b\n\nc" && s[..1] == "a";
    TwoParagraphs();
  }

  /** Matches do not overlap: after a triple newline the third newline
      starts the next paragraph. */
  lemma TripleNewline()
    ensures Paragraphs("x\n\n\ny") == ["x", "\ny"]
  {
    var s, t := "x\n\n\ny", "\ny";
    assert s[0..2][0] != ParagraphBreak[0] && s[1..3] == ParagraphBreak;
    SplitAtFirst(s, ParagraphBreak, 1);
    assert s[3..] == t && s[..1] == "x";
    assert t[0..2][1] != ParagraphBreak[1];
    assert !Contains(t, ParagraphBreak) by {
      forall i | OccursAt(t, ParagraphBreak, i) ensures false {
      }
    }
    SplitWithoutSeparator(t, ParagraphBreak);
  }
}
