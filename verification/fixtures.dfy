/** The users and posts the page lists (src/data/users.ts and
    src/data/posts.ts), and facts about the two lookups on them. None of
    these posts carries media. */
module Fixtures {
  import opened Wrappers
  import opened Data
  import Navigation
  import Sequences

  const Users: seq<User> := [
    User("1", "Marcus Sterling", "marcussterling", "Tech visionary. Building the future of sustainable energy. CEO @StellarTech", "MS", 12500000, 234),
    User("2", "Elena Voss", "elenavoss", "Award-winning author & philosopher. Exploring consciousness and creativity.", "EV", 4200000, 892),
    User("3", "James Chen", "jameschen", "Venture capitalist. Early investor in 50+ unicorns. Building tomorrow's giants.", "JC", 3800000, 1205),
    User("4", "Sofia Rodriguez", "sofiarodriguez", "Astrophysicist at NASA. Searching for life beyond Earth. Science communicator.", "SR", 2100000, 445),
    User("5", "David Park", "davidpark", "Founder @NeuralMind. AI researcher. Making machines understand humans.", "DP", 5600000, 178)
  ]

  const Posts: seq<Post> := [
    Post("p1", "1", "The Future of Clean Energy",
      "We're on the verge of a massive breakthrough in solar efficiency. Here's what it means for humanity...",
      "We're on the verge of a massive breakthrough in solar efficiency. Our team has achieved 47% conversion rates in lab conditions, far exceeding the current commercial standard of 22%. This isn't just an incremental improvement—it's a paradigm shift.\n\nWhat does this mean? Within five years, solar energy could become cheaper than coal in every market worldwide. We're talking about a complete transformation of the global energy landscape.\n\nThe implications extend beyond just electricity. Cheap, abundant clean energy enables everything from desalination plants that can provide fresh water to billions, to electric aircraft that could revolutionize travel.\n\nThe future is brighter than ever. We just need to keep pushing.",
      "2024-01-15", None),
    Post("p2", "1", "Why I Invest in Space",
      "People ask me why a clean energy company invests in space exploration. The answer is simple...",
      "People ask me why a clean energy company invests in space exploration. The answer is simple: the technologies required for space are the same ones that will save Earth.\n\nLife support systems, closed-loop recycling, efficient power generation, advanced materials—every breakthrough we make for space directly translates to terrestrial applications.\n\nOur Mars habitat research has already produced three patents for water recycling that are now being deployed in drought-affected regions.\n\nSpace isn't an escape from Earth's problems. It's a laboratory for solving them.",
      "2024-01-10", None),
    Post("p3", "1", "On Building Teams",
      "The most important skill in building a company isn't technical—it's finding people who share your vision...",
      "The most important skill in building a company isn't technical—it's finding people who share your vision and complement your weaknesses.\n\nI've made every hiring mistake in the book. I've hired brilliant jerks, nice incompetents, and people who just wanted the prestige without the work.\n\nWhat I've learned: hire for character first, skills second. You can teach someone new technologies. You can't teach integrity or work ethic.\n\nThe best teams I've built weren't the smartest on paper. They were the ones who genuinely cared about what we were trying to accomplish.",
      "2024-01-05", None),
    Post("p4", "2", "The Art of Deep Reading",
      "In an age of infinite scroll, the ability to deeply engage with a text is becoming rare and valuable...",
      "In an age of infinite scroll, the ability to deeply engage with a text is becoming rare and valuable. We consume more words than any generation in history, yet understand less.\n\nDeep reading isn't just about comprehension—it's about allowing ideas to reshape your mental landscape. It requires silence, patience, and the willingness to be uncomfortable.\n\nI challenge you this week: take one book, turn off your phone, and read for two hours uninterrupted. Notice how your mind resists at first, then settles.\n\nThat settling is where real understanding begins.",
      "2024-01-14", None),
    Post("p5", "2", "Why Stories Matter",
      "We are not the rational creatures we believe ourselves to be. We are narrative creatures...",
      "We are not the rational creatures we believe ourselves to be. We are narrative creatures, and the stories we tell ourselves shape everything—our identities, our politics, our relationships.\n\nEvery culture, every religion, every nation is held together by shared narratives. Change the story, and you change reality.\n\nThis is why fiction matters. Not as escapism, but as rehearsal for empathy. Every novel you read is practice at understanding minds different from your own.\n\nIn a fractured world, stories might be our best hope for rebuilding connection.",
      "2024-01-08", None),
    Post("p6", "2", "On Creative Doubt",
      "Every artist I admire suffers from the same affliction: the certainty that they're frauds...",
      "Every artist I admire suffers from the same affliction: the certainty that they're frauds about to be discovered.\n\nI've written seven novels, won prizes, sold millions of copies. I still begin every new book convinced I've forgotten how to write.\n\nBut here's what I've learned: the doubt isn't a bug, it's a feature. The moment you're certain of your genius is the moment you stop improving.\n\nDon't fight the fear. Let it keep you humble, keep you working, keep you reaching for something just beyond your grasp.",
      "2024-01-02", None),
    Post("p7", "2", "The Silence Between Words",
      "The best conversations aren't about what's said—they're about what's understood without saying...",
      "The best conversations aren't about what's said—they're about what's understood without saying.\n\nIn Japanese, there's a concept called 'ma'—the meaningful pause, the pregnant silence. It's not empty space but charged space, full of potential.\n\nWe've lost this in our rush to fill every moment with content. We interrupt, we prepare our responses while others speak, we fear any gap in the noise.\n\nTry this: in your next conversation, wait three seconds before responding. Let the other person's words settle. You'll be amazed at what emerges in the silence.",
      "2023-12-28", None),
    Post("p8", "3", "What I Look for in Founders",
      "After 20 years and 200 investments, I've learned that the best founders share one trait...",
      "After 20 years and 200 investments, I've learned that the best founders share one trait: they're comfortable with ambiguity.\n\nStartups are chaos machines. The business plan that gets funding bears almost no resemblance to what succeeds. Markets shift, technologies evolve, competitors emerge.\n\nThe founders who win aren't the ones with the best initial ideas. They're the ones who can navigate uncertainty without losing their minds or their conviction.\n\nI call it 'confident humility'—the ability to believe deeply in your vision while remaining open to evidence that you're wrong.",
      "2024-01-13", None),
    Post("p9", "3", "The 10x Engineer Myth",
      "Silicon Valley loves the idea of the lone genius coder. It's also mostly wrong...",
      "Silicon Valley loves the idea of the lone genius coder—the 10x engineer who outproduces entire teams. It's also mostly wrong.\n\nYes, exceptional engineers exist. But their 'exceptional' impact usually comes from making everyone around them better, not from typing faster.\n\nThe engineers who've created the most value in my portfolio companies are the ones who write clear documentation, mentor juniors, and catch problems before they become crises.\n\nBrilliant jerks might ship features, but they destroy teams. And in the long run, great teams beat great individuals every time.",
      "2024-01-07", None),
    Post("p10", "3", "Why I'm Bullish on Boring",
      "The flashiest startups get the headlines. The boring ones get the returns...",
      "The flashiest startups get the headlines. The boring ones get the returns.\n\nMy best investment wasn't a moonshot AI company or a crypto protocol. It was a B2B SaaS that helps accountants manage their workflows. No glamour, no TED talks, just steady 40% annual growth for a decade.\n\nBoring businesses work because they solve real problems for customers who are happy to pay. They don't need to change human behavior or create new markets.\n\nThe next time someone pitches you on revolutionizing an industry, ask if they've considered just making an existing industry 10% better. That's usually where the money is.",
      "2024-01-01", None),
    Post("p11", "4", "We Are Not Alone",
      "After a decade of research, I'm increasingly confident that life exists beyond Earth...",
      "After a decade of research, I'm increasingly confident that life exists beyond Earth. Not because I've found it—but because the numbers simply don't allow for our uniqueness.\n\nThe observable universe contains roughly 200 billion galaxies, each with hundreds of billions of stars. Most of those stars have planets. We now know that the chemistry of life is not special—the building blocks are everywhere.\n\nThe question isn't whether life exists out there. It's why we haven't found it yet. That's what keeps me up at night.\n\nThe answer, I believe, will reshape everything we think about our place in the cosmos.",
      "2024-01-12", None),
    Post("p12", "4", "On Scientific Humility",
      "The greatest scientists I know are the ones most comfortable saying 'I don't know'...",
      "The greatest scientists I know are the ones most comfortable saying 'I don't know.'\n\nScience isn't a collection of facts—it's a method for discovering how wrong we are. Every major breakthrough came from someone willing to question established truths.\n\nThis is hard in practice. Scientists are humans with egos and careers. Admitting uncertainty can feel like weakness.\n\nBut the willingness to be wrong is exactly what makes science work. The universe doesn't care about our reputations. It only rewards honest inquiry.",
      "2024-01-06", None),
    Post("p13", "4", "Why Space Matters Now",
      "Some argue space exploration is a luxury we can't afford. I argue the opposite...",
      "Some argue space exploration is a luxury we can't afford while Earth faces so many problems. I argue the opposite: we can't afford not to explore.\n\nEvery dollar invested in space returns multiples in technological innovation, scientific understanding, and yes, economic value. GPS, weather satellites, and global communications—all space dividends.\n\nBut more importantly: space gives us perspective. When you see Earth from orbit—that thin blue line of atmosphere, no borders visible—it changes how you think about everything.\n\nWe need that perspective now more than ever.",
      "2023-12-30", None),
    Post("p14", "5", "The AI Hype Cycle",
      "We're simultaneously overestimating and underestimating artificial intelligence...",
      "We're simultaneously overestimating and underestimating artificial intelligence. The current hype cycle is pushing unrealistic expectations that will inevitably lead to disappointment.\n\nWhat AI can do today: narrow tasks with superhuman performance, pattern recognition at scale, language generation that mimics human output.\n\nWhat AI cannot do: understand meaning, generalize from limited examples, reason about novel situations the way humans do.\n\nThe gap between these two is where fortunes will be made and lost. The winners will be those who build practical applications, not those chasing artificial general intelligence.",
      "2024-01-11", None),
    Post("p15", "5", "Building Ethical AI",
      "The question isn't whether AI will be biased. It's whether we'll acknowledge and address those biases...",
      "The question isn't whether AI will be biased. It's whether we'll acknowledge and address those biases.\n\nEvery AI system reflects the data it was trained on and the choices made by its creators. Those choices embed values, whether we intend them to or not.\n\nAt NeuralMind, we've made ethics review a core part of our development process. Not as PR, but as engineering discipline. We catch problems earlier, ship better products, and sleep better at night.\n\nThe companies that ignore this will face reckoning. The technology is too powerful for carelessness.",
      "2024-01-04", None),
    Post("p16", "5", "On Learning to Code",
      "Everyone should learn to code, but not for the reasons you think...",
      "Everyone should learn to code, but not for the reasons you think.\n\nIt's not about job security or keeping up with technology. It's about understanding how the systems that shape our lives actually work.\n\nCode is the language of power in the 21st century. Those who understand it can question, critique, and shape the systems that govern us. Those who don't are at the mercy of those who do.\n\nYou don't need to become a professional developer. But understanding the basics of how software works is as essential today as basic literacy was a century ago.",
      "2023-12-25", None),
    Post("p17", "5", "The Future of Work",
      "AI won't replace humans. But humans who use AI will replace humans who don't...",
      "AI won't replace humans. But humans who use AI will replace humans who don't.\n\nThis isn't a prediction—it's already happening. In our own company, we've seen productivity differences of 3-5x between teams that effectively leverage AI tools and those that resist them.\n\nThe good news: AI tools are getting easier to use. You don't need to understand machine learning to benefit from it. You just need to be willing to learn new workflows.\n\nThe people who thrive in the next decade will be those who view AI as a collaborator, not a competitor.",
      "2023-12-20", None)
  ]

  const Seed: Catalog := Catalog(Users, Posts)

  /** James Chen, id "3", is third in the list. */
  lemma UserIndexOfThree()
    ensures Navigation.GetUserIndex(Users, "3") == 2
  {
    assert Users[0].id == "1" && Users[1].id == "2" && Users[2].id == "3";
  }

  /** An id no user has is not found. */
  lemma UserIndexOfUnknown()
    ensures Navigation.GetUserIndex(Users, "9") == -1
  {
    forall k | 0 <= k < |Users| ensures Users[k].id != "9" {
      assert Users[k].id[0] != '9';
    }
  }

  /** Elena Voss, id "2", has the four posts p4 to p7, in that order. */
  lemma PostsOfTwo()
    ensures Navigation.GetUserPosts(Posts, "2") == Posts[3..7]
  {
    PostsSplitAtTwo();
    OwnersAroundTwo();
    FilterMiddle(Posts[..3], Posts[3..7], Posts[7..], Navigation.OwnedBy("2"));
  }

  lemma PostsSplitAtTwo()
    ensures Posts == Posts[..3] + Posts[3..7] + Posts[7..]
  {
  }

  lemma OwnersAroundTwo()
    ensures forall k | 0 <= k < 3 :: Posts[..3][k].userId == "1"
    ensures forall k | 0 <= k < 4 :: Posts[3..7][k].userId == "2"
    ensures forall k | 0 <= k < 10 :: Posts[7..][k].userId != "2"
  {
  }

  /** Filtering keeps exactly the middle part when only it is kept. */
  lemma FilterMiddle(before: seq<Post>, mine: seq<Post>, after: seq<Post>, keep: Post -> bool)
    requires forall k :: 0 <= k < |before| ==> !keep(before[k])
    requires forall k :: 0 <= k < |mine| ==> keep(mine[k])
    requires forall k :: 0 <= k < |after| ==> !keep(after[k])
    ensures Sequences.Filter(before + mine + after, keep) == mine
  {
    Sequences.FilterAppend(before + mine, after, keep);
    Sequences.FilterAppend(before, mine, keep);
    FilterNone(before, keep);
    FilterAll(mine, keep);
    FilterNone(after, keep);
  }

  lemma {:induction false} FilterAll(s: seq<Post>, keep: Post -> bool)
    requires forall k :: 0 <= k < |s| ==> keep(s[k])
    ensures Sequences.Filter(s, keep) == s
  {
    if |s| > 0 {
      FilterAll(s[1..], keep);
    }
  }

  lemma {:induction false} FilterNone(s: seq<Post>, keep: Post -> bool)
    requires forall k :: 0 <= k < |s| ==> !keep(s[k])
    ensures Sequences.Filter(s, keep) == []
  {
    if |s| > 0 {
      FilterNone(s[1..], keep);
    }
  }

  /** A walk through the page: search, open Elena Voss, open her first
      post, and go back twice. */
  method BrowseElena()
  {
    var page := new Navigation.IndexPage(Seed);
    page.HandleSearch();
    page.HandleUserClick(Users[1]);
    page.HandlePostClick(Posts[3]);
    assert page.view == Navigation.PostView && page.selectedUser == Some(Users[1]);
    page.HandleBackToProfile();
    assert page.view == Navigation.ProfileView;
    assert page.selectedUser == Some(Users[1]) && page.selectedPost == None;
    page.HandleBackToUsers();
    assert page.view == Navigation.UsersView && page.selectedUser == None && page.selectedPost == None;
    page.HandleBackToHome();
    assert page.Snapshot() == Navigation.Initial;
  }

  /** The same walk as intents: each one is offered by the screen before it. */
  lemma ElenaWalkIsNavigable()
    ensures Navigation.Navigable(Seed, Navigation.Initial, Navigation.Walk(Users[1], Posts[3]))
  {
    assert Posts[3] in Posts && Posts[3].userId == Users[1].id;
    Navigation.WalkIsNavigable(Seed, Users[1], Posts[3]);
  }
}
