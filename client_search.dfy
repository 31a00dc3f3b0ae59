/** The client list of the side panel: the case-insensitive search over name
    and profession, and the count shown above the list. Both versions of the
    panel use the same filter and the same count text. */
module ClientSearch {
  import opened Text
  import opened Seqs

  /** The fields of a client the panel lists. */
  datatype ListedClient = ListedClient(id: string, name: string, gender: string, profession: string)

  /** The search test: the lower-cased name or the lower-cased profession
      contains the lower-cased term. */
  predicate Matches(client: ListedClient, term: string) {
    || Contains(ToLower(client.name), ToLower(term))
    || Contains(ToLower(client.profession), ToLower(term))
  }

  /** `clients.filter(...)`: the clients that match, in list order. */
  function Search(clients: seq<ListedClient>, term: string): (r: seq<ListedClient>)
    ensures IsSubsequence(r, clients)
    ensures forall c :: c in r <==> c in clients && Matches(c, term)
    ensures forall c :: multiset(r)[c] == if Matches(c, term) then multiset(clients)[c] else 0
  {
    Filter(clients, MatchesTerm(term))
  }

  /** The filter callback for one search term. */
  function MatchesTerm(term: string): ListedClient -> bool {
    (c: ListedClient) => Matches(c, term)
  }

  /** An empty search box shows every client, in order. */
  lemma SearchEmptyKeepsAll(clients: seq<ListedClient>)
    ensures Search(clients, "") == clients
  {
    forall i | 0 <= i < |clients|
      ensures Matches(clients[i], "")
    {
      ContainsEmpty(ToLower(clients[i].name));
    }
    FilterAll(clients, MatchesTerm(""));
  }

  /** Typing more narrows the list: the result for a longer term is a
      subsequence of the result for the term it extends. */
  lemma SearchNarrows(clients: seq<ListedClient>, term: string, more: string)
    ensures IsSubsequence(Search(clients, term + more), Search(clients, term))
  {
    ToLowerAppend(term, more);
    forall c: ListedClient
      ensures Matches(c, term + more) ==> Matches(c, term)
    {
      ContainsPrefixOfNeedle(ToLower(c.name), ToLower(term), ToLower(more));
      ContainsPrefixOfNeedle(ToLower(c.profession), ToLower(term), ToLower(more));
    }
    FilterMonotone(clients, MatchesTerm(term + more), MatchesTerm(term));
  }

  /** The search is case-insensitive: a term and its lower-cased form match
      the same clients, so they list the same clients in the same order. */
  lemma SearchIgnoresCase(clients: seq<ListedClient>, term: string)
    ensures forall c :: Matches(c, ToLower(term)) == Matches(c, term)
    ensures Search(clients, ToLower(term)) == Search(clients, term)
  {
    ToLowerIdempotent(term);
    FilterSame(clients, MatchesTerm(ToLower(term)), MatchesTerm(term));
  }

  /** The noun after the count. */
  function Noun(n: nat): (r: string) {
    if n == 1 then "cliente" else "clientes"
  }

  /** `{filteredClients.length} {length === 1 ? "cliente" : "clientes"}`: the
      count in decimal, a space, and the noun in the singular exactly for one
      client. */
  function CountText(n: nat): (r: string)
    ensures |r| > |NatToString(n)| && r[|NatToString(n)|] == ' '
    ensures r[..|NatToString(n)|] == NatToString(n) && DigitsValue(r[..|NatToString(n)|]) == n
    ensures r[|NatToString(n)| + 1..] == "cliente" <==> n == 1
  {
    NatToStringRoundTrip(n);
    var digits := NatToString(n);
    var r := digits + " " + Noun(n);
    assert r[..|digits|] == digits;
    assert r[|digits| + 1..] == Noun(n);
    r
  }

  /** Different counts are shown differently. */
  lemma CountTextInjective(a: nat, b: nat)
    ensures CountText(a) == CountText(b) ==> a == b
  {
    if CountText(a) == CountText(b) {
      var na, nb := NatToString(a), NatToString(b);
      assert |na| == |nb| by {
        assert forall i :: 0 <= i < |na| ==> IsDigit(na[i]);
        assert forall i :: 0 <= i < |nb| ==> IsDigit(nb[i]);
      }
      NatToStringInjective(a, b);
    }
  }
}
