/** The dashboard's "recent activity" card: a copy of the client list sorted
    by id, highest first, with a missing id counted as 0, of which the first
    three are shown; with no clients the card shows its empty state. */
module MainBody {
  import opened Options
  import opened Seqs

  /** The fields of a client the card uses. */
  datatype DashboardClient = DashboardClient(id: Option<int>, name: string)

  /** `client.id || 0`. */
  function Key(c: DashboardClient): int {
    c.id.GetOr(0)
  }

  /** Keys never increase along the sequence. */
  predicate Descending(s: seq<DashboardClient>) {
    forall i, j :: 0 <= i < j < |s| ==> Key(s[i]) >= Key(s[j])
  }

  /** Put `c` in front of the first element whose key is not larger: after
      every larger key and before every equal one. */
  function Insert(c: DashboardClient, s: seq<DashboardClient>): (r: seq<DashboardClient>)
    requires Descending(s)
    ensures |r| == |s| + 1
    ensures r[0] == c || (s != [] && r[0] == s[0])
    ensures Descending(r)
    ensures multiset(r) == multiset(s) + multiset{c}
  {
    if s == [] || Key(s[0]) <= Key(c) then
      assert Descending([c] + s) by {
        forall i, j | 0 <= i < j < |[c] + s|
          ensures Key(([c] + s)[i]) >= Key(([c] + s)[j])
        {
          if i > 0 {
            assert ([c] + s)[i] == s[i - 1] && ([c] + s)[j] == s[j - 1];
          } else {
            assert ([c] + s)[j] == s[j - 1];
          }
        }
      }
      [c] + s
    else
      var rest := Insert(c, s[1..]);
      var r := [s[0]] + rest;
      assert Key(rest[0]) <= Key(s[0]) by {
        if rest[0] != c {
          assert rest[0] == s[1];
        }
      }
      assert Descending(r) by {
        forall i, j | 0 <= i < j < |r|
          ensures Key(r[i]) >= Key(r[j])
        {
          assert r[j] == rest[j - 1];
          if i > 0 {
            assert r[i] == rest[i - 1];
          } else if j > 1 {
            assert Key(rest[0]) >= Key(rest[j - 1]);
          }
        }
      }
      assert s == [s[0]] + s[1..];
      r
  }

  /** `sort((a, b) => (b.id || 0) - (a.id || 0))`: an insertion sort, which,
      like JavaScript's sort, keeps clients with equal keys in list order. */
  function SortByIdDescending(s: seq<DashboardClient>): (r: seq<DashboardClient>)
    ensures |r| == |s|
    ensures Descending(r)
    ensures multiset(r) == multiset(s)
  {
    if s == [] then
      []
    else
      assert s == [s[0]] + s[1..];
      Insert(s[0], SortByIdDescending(s[1..]))
  }

  /** The test "has key `k`", as the filter it is used with. */
  function HasKey(k: int): DashboardClient -> bool {
    (x: DashboardClient) => Key(x) == k
  }

  /** Inserting a client adds it to the clients with its key, in front, and
      leaves the clients with other keys as they were. */
  lemma {:induction false} InsertKeepsTies(c: DashboardClient, s: seq<DashboardClient>, k: int)
    requires Descending(s)
    ensures Filter(Insert(c, s), HasKey(k))
      == (if Key(c) == k then [c] else []) + Filter(s, HasKey(k))
  {
    var p := HasKey(k);
    if s == [] || Key(s[0]) <= Key(c) {
      assert Insert(c, s) == [c] + s;
      FilterCons(c, s, p);
      assert p(c) <==> Key(c) == k;
    } else {
      var rest := Insert(c, s[1..]);
      assert Insert(c, s) == [s[0]] + rest;
      assert s == [s[0]] + s[1..];
      InsertKeepsTies(c, s[1..], k);
      FilterCons(s[0], rest, p);
      FilterCons(s[0], s[1..], p);
      if Key(c) == k {
        assert !p(s[0]);
      } else {
        assert Filter(rest, p) == Filter(s[1..], p);
      }
    }
  }


  /** The sort is stable: the clients sharing a key come out in the order
      they had in the list. */
  lemma {:induction false} SortIsStable(s: seq<DashboardClient>, k: int)
    ensures Filter(SortByIdDescending(s), HasKey(k))
      == Filter(s, HasKey(k))
  {
    if s != [] {
      SortIsStable(s[1..], k);
      InsertKeepsTies(s[0], SortByIdDescending(s[1..]), k);
    }
  }

  /** `clients.slice().sort(...).slice(0, 3)`. */
  function RecentActivity(clients: seq<DashboardClient>): (r: seq<DashboardClient>)
    ensures |r| == if |clients| < 3 then |clients| else 3
    ensures r == SortByIdDescending(clients)[..|r|]
  {
    var sorted := SortByIdDescending(clients);
    sorted[..if |sorted| < 3 then |sorted| else 3]
  }

  /** In a descending sequence, nothing after a prefix has a larger key
      than anything in it. */
  lemma PrefixHoldsLargest(s: seq<DashboardClient>, n: nat)
    requires Descending(s) && n <= |s|
    ensures forall x, y :: x in s[..n] && y in multiset(s) - multiset(s[..n]) ==> Key(y) <= Key(x)
  {
    assert s == s[..n] + s[n..];
    forall x, y | x in s[..n] && y in multiset(s) - multiset(s[..n])
      ensures Key(y) <= Key(x)
    {
      var i :| 0 <= i < n && s[..n][i] == x;
      assert y in multiset(s[n..]);
      var j :| 0 <= j < |s[n..]| && s[n..][j] == y;
      assert s[i] == x && s[n + j] == y;
    }
  }

  /** What the card shows: at most three clients, highest key first, taken
      from the list; every client left out has a key no larger than any
      shown. */
  lemma RecentActivityIsTopThree(clients: seq<DashboardClient>)
    ensures Descending(RecentActivity(clients))
    ensures multiset(RecentActivity(clients)) <= multiset(clients)
    ensures forall x, y ::
      x in RecentActivity(clients) && y in multiset(clients) - multiset(RecentActivity(clients))
      ==> Key(y) <= Key(x)
  {
    var sorted := SortByIdDescending(clients);
    var n := |RecentActivity(clients)|;
    assert sorted == sorted[..n] + sorted[n..];
    PrefixHoldsLargest(sorted, n);
  }

  /** The two branches of the card. */
  datatype RecentView = Activity(items: seq<DashboardClient>) | NoActivity

  /** `clients.length > 0 ? ... : <empty state>`. */
  function RecentCard(clients: seq<DashboardClient>): (r: RecentView)
    ensures r.NoActivity? <==> clients == []
    ensures r.Activity? ==> 1 <= |r.items| <= 3 && r.items == RecentActivity(clients)
  {
    if |clients| > 0 then Activity(RecentActivity(clients)) else NoActivity
  }
}
