/** The derived lists of src/components/Layout/ChatSidebar.jsx: the conversations whose title
    matches the search box, split into the Pinned section and the Today section. */
module ConversationView {
  import opened Sequences
  import opened Strings

  /** A conversation as the sidebar reads it from the store. */
  datatype Conversation = Conversation(id: string, title: string, pinned: bool)

  /** `c.title.toLowerCase().includes(searchQuery.toLowerCase())`. */
  predicate TitleMatches(c: Conversation, query: string) {
    Contains(ToLower(c.title), ToLower(query))
  }

  /** The filter callback of `filteredConversations`. */
  function MatchesQuery(query: string): Conversation -> bool {
    c => TitleMatches(c, query)
  }

  /** The filter callback of `pinnedChats`. */
  predicate IsPinned(c: Conversation) {
    c.pinned
  }

  /** The filter callback of `recentChats`. */
  predicate IsUnpinned(c: Conversation) {
    !c.pinned
  }

  /** `filteredConversations`. */
  function FilteredConversations(cs: seq<Conversation>, query: string): (r: seq<Conversation>)
    ensures forall c :: c in r ==> c in cs && TitleMatches(c, query)
    ensures forall c :: c in cs && TitleMatches(c, query) ==> c in r
    ensures |r| <= |cs|
  {
    Filter(cs, MatchesQuery(query))
  }

  /** `pinnedChats`. */
  function PinnedChats(cs: seq<Conversation>, query: string): (r: seq<Conversation>)
    ensures forall c :: c in r ==> c.pinned && c in cs && TitleMatches(c, query)
    ensures forall c :: c in cs && c.pinned && TitleMatches(c, query) ==> c in r
  {
    Filter(FilteredConversations(cs, query), IsPinned)
  }

  /** `recentChats`. */
  function RecentChats(cs: seq<Conversation>, query: string): (r: seq<Conversation>)
    ensures forall c :: c in r ==> !c.pinned && c in cs && TitleMatches(c, query)
    ensures forall c :: c in cs && !c.pinned && TitleMatches(c, query) ==> c in r
  {
    Filter(FilteredConversations(cs, query), IsUnpinned)
  }

  /** The filtered list is exactly the matching conversations: each of them with its
      multiplicity, and in the store's order. */
  lemma FilteredExactly(cs: seq<Conversation>, query: string)
    ensures forall c :: c in FilteredConversations(cs, query) <==> c in cs && TitleMatches(c, query)
    ensures forall c ::
      multiset(FilteredConversations(cs, query))[c] == if TitleMatches(c, query) then multiset(cs)[c] else 0
    ensures IsSubsequence(FilteredConversations(cs, query), cs)
  {
    forall c ensures multiset(FilteredConversations(cs, query))[c]
      == if TitleMatches(c, query) then multiset(cs)[c] else 0
    {
      FilterCount(cs, MatchesQuery(query), c);
    }
    FilterIsSubsequence(cs, MatchesQuery(query));
  }

  /** The search is case-insensitive: lower-casing the query changes nothing. */
  lemma SearchIgnoresQueryCase(cs: seq<Conversation>, query: string)
    ensures FilteredConversations(cs, ToLower(query)) == FilteredConversations(cs, query)
  {
    ToLowerIdempotent(query);
    FilterSameCallback(cs, MatchesQuery(ToLower(query)), MatchesQuery(query));
  }

  /** An empty search box shows every conversation. */
  lemma EmptyQueryKeepsAll(cs: seq<Conversation>)
    ensures FilteredConversations(cs, "") == cs
  {
    forall c | c in cs ensures MatchesQuery("")(c) {
      ContainsEmpty(ToLower(c.title));
    }
    FilterKeepsAll(cs, MatchesQuery(""));
  }

  /** A query that matches no title leaves both sections empty. */
  lemma NoMatchEmptiesBoth(cs: seq<Conversation>, query: string)
    requires forall c :: c in cs ==> !TitleMatches(c, query)
    ensures FilteredConversations(cs, query) == []
    ensures PinnedChats(cs, query) == [] && RecentChats(cs, query) == []
  {
    FilterKeepsNone(cs, MatchesQuery(query));
  }

  /** A query longer than every title matches nothing. */
  lemma LongQueryMatchesNothing(cs: seq<Conversation>, query: string)
    requires forall c :: c in cs ==> |c.title| < |query|
    ensures FilteredConversations(cs, query) == []
  {
    forall c | c in cs ensures !TitleMatches(c, query) {
      if TitleMatches(c, query) {
        ContainsNeedsLength(ToLower(c.title), ToLower(query));
      }
    }
    NoMatchEmptiesBoth(cs, query);
  }

  /** The two sections partition the filtered list: Pinned holds pinned conversations only and
      Today unpinned ones only, so no conversation is in both; together they hold every filtered
      conversation with its multiplicity, so their lengths add up; and each keeps the order of
      the filtered list. */
  lemma SectionsPartition(cs: seq<Conversation>, query: string)
    ensures forall c :: c in PinnedChats(cs, query) ==> c.pinned
    ensures forall c :: c in RecentChats(cs, query) ==> !c.pinned
    ensures forall c :: c in PinnedChats(cs, query) ==> c !in RecentChats(cs, query)
    ensures forall c ::
      c in FilteredConversations(cs, query) <==> c in PinnedChats(cs, query) || c in RecentChats(cs, query)
    ensures multiset(PinnedChats(cs, query)) + multiset(RecentChats(cs, query))
      == multiset(FilteredConversations(cs, query))
    ensures |PinnedChats(cs, query)| + |RecentChats(cs, query)| == |FilteredConversations(cs, query)|
    ensures IsSubsequence(PinnedChats(cs, query), FilteredConversations(cs, query))
    ensures IsSubsequence(RecentChats(cs, query), FilteredConversations(cs, query))
  {
    var f := FilteredConversations(cs, query);
    FilterSplit(f, IsPinned, IsUnpinned);
    FilterIsSubsequence(f, IsPinned);
    FilterIsSubsequence(f, IsUnpinned);
  }

  /** A conversation is listed under Pinned exactly when it is in the store, matches the query
      and is pinned, and under Today exactly when it matches and is not pinned. */
  lemma SectionMembership(cs: seq<Conversation>, query: string, c: Conversation)
    ensures c in PinnedChats(cs, query) <==> c in cs && TitleMatches(c, query) && c.pinned
    ensures c in RecentChats(cs, query) <==> c in cs && TitleMatches(c, query) && !c.pinned
  {
    FilteredExactly(cs, query);
  }

  /** The conversations as rendered: the Pinned section, then the Today section. */
  function Listed(cs: seq<Conversation>, query: string): (r: seq<Conversation>)
    ensures forall c :: c in r ==> c in cs && TitleMatches(c, query)
    ensures forall c :: c in cs && TitleMatches(c, query) ==> c in r
    ensures |r| == |FilteredConversations(cs, query)|
  {
    SectionsPartition(cs, query);
    FilteredExactly(cs, query);
    PinnedChats(cs, query) + RecentChats(cs, query)
  }
}
