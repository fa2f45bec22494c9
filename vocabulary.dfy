/** `app/acquire/vocabulary/page.tsx`: the vocabulary page's topic search and deck
    choice. */
module VocabularyPage {
  import opened Text

  datatype Topic = Topic(id: string, name: string, cardCount: nat)
  datatype Deck = Deck(id: string, name: string, cardCount: nat)

  const Decks: seq<Deck> := [
    Deck("1", "Basics", 42), Deck("2", "Greetings", 15), Deck("3", "Food & Dining", 28), Deck("4", "Travel", 35)
  ]

  const Topics: seq<Topic> := [
    Topic("1", "Ordering Food", 24), Topic("2", "Conversation Starters", 18),
    Topic("3", "Comforting People", 12), Topic("4", "Job Interviews", 30),
    Topic("5", "Shopping", 22), Topic("6", "Transportation", 16),
    Topic("7", "Emergency Situations", 14), Topic("8", "Weather Discussions", 10),
    Topic("9", "Family Relationships", 20), Topic("10", "Hobbies & Interests", 25),
    Topic("11", "Academic Vocabulary", 35), Topic("12", "Business Meetings", 28)
  ]

  /** The filter's test: the lower-cased name contains the lower-cased query. */
  predicate Matches(t: Topic, query: string)
  {
    Includes(ToLower(t.name), ToLower(query))
  }

  /** `topics.filter(...)`: the matching topics, in their original order. */
  function FilterTopics(topics: seq<Topic>, query: string): (r: seq<Topic>)
    ensures |r| <= |topics|
    ensures forall t :: t in r <==> t in topics && Matches(t, query)
  {
    if topics == [] then []
    else (if Matches(topics[0], query) then [topics[0]] else []) + FilterTopics(topics[1..], query)
  }

  /** Filtering distributes over concatenation, so the result keeps the topics' order. */
  lemma {:induction false} FilterAppend(a: seq<Topic>, b: seq<Topic>, query: string)
    ensures FilterTopics(a + b, query) == FilterTopics(a, query) + FilterTopics(b, query)
  {
    if a == [] {
      assert a + b == b;
    } else {
      assert (a + b)[1..] == a[1..] + b;
      FilterAppend(a[1..], b, query);
    }
  }

  /** When every topic matches, nothing is dropped. */
  lemma {:induction false} FilterKeepsAllMatches(topics: seq<Topic>, query: string)
    requires forall i :: 0 <= i < |topics| ==> Matches(topics[i], query)
    ensures FilterTopics(topics, query) == topics
  {
    if topics != [] {
      FilterKeepsAllMatches(topics[1..], query);
    }
  }

  /** An empty search lists all twelve topics. */
  lemma EmptyQueryListsAll()
    ensures FilterTopics(Topics, "") == Topics && |Topics| == 12
  {
    forall i | 0 <= i < |Topics| ensures Matches(Topics[i], "") {
      IncludesEmpty(ToLower(Topics[i].name));
    }
    FilterKeepsAllMatches(Topics, "");
  }

  /** The query's case does not matter: lower-casing it first gives the same list. */
  lemma QueryCaseIgnored(topics: seq<Topic>, query: string)
    ensures FilterTopics(topics, ToLower(query)) == FilterTopics(topics, query)
  {
    ToLowerIdempotent(query);
  }

  /** Nor does the topic names' case. */
  lemma NameCaseIgnored(t: Topic, query: string)
    ensures Matches(Topic(t.id, ToLower(t.name), t.cardCount), query) <==> Matches(t, query)
  {
    ToLowerIdempotent(t.name);
  }

  /** The topics menu: the matching items, or the "No topics found" line instead. */
  datatype TopicsMenu = Items(topics: seq<Topic>) | NoneFound(message: string)

  function Menu(topics: seq<Topic>, query: string): (m: TopicsMenu)
    ensures m.Items? <==> exists t :: t in topics && Matches(t, query)
    ensures m.Items? ==> m.topics == FilterTopics(topics, query)
    ensures m.NoneFound? ==> m.message == "No topics found matching \"" + query + "\""
  {
    var found := FilterTopics(topics, query);
    assert |found| > 0 ==> found[0] in found;
    if |found| > 0 then Items(found) else NoneFound("No topics found matching \"" + query + "\"")
  }

  /** The page's state. */
  class Vocabulary {
    var isLoading: bool
    var searchQuery: string
    var currentDeck: Deck

    ghost predicate Valid()
      reads this
    {
      currentDeck in Decks
    }

    constructor ()
      ensures Valid()
      ensures isLoading && searchQuery == "" && currentDeck == Decks[0]
    {
      isLoading := true;
      searchQuery := "";
      currentDeck := Decks[0];
    }

    /** The search input. */
    method SetSearchQuery(query: string)
      requires Valid()
      modifies this
      ensures Valid()
      ensures searchQuery == query && currentDeck == old(currentDeck) && isLoading == old(isLoading)
    {
      searchQuery := query;
    }

    /** A click on the `k`-th deck of the menu. */
    method SelectDeck(k: nat)
      requires Valid()
      requires k < |Decks|
      modifies this
      ensures Valid()
      ensures currentDeck == Decks[k] && searchQuery == old(searchQuery) && isLoading == old(isLoading)
    {
      currentDeck := Decks[k];
    }

    /** The 800 ms loading timer. */
    method LoadingDone()
      requires Valid()
      modifies this
      ensures Valid()
      ensures !isLoading && searchQuery == old(searchQuery) && currentDeck == old(currentDeck)
    {
      isLoading := false;
    }

    /** The topics shown for the current query. */
    function FilteredTopics(): (r: seq<Topic>)
      reads this
      ensures forall t :: t in r <==> t in Topics && Matches(t, searchQuery)
    {
      FilterTopics(Topics, searchQuery)
    }
  }
}
