/** Which elections a user may see (storage/storage.go): those the user
    administers or is listed as a voter of, one entry per election chain. */
module UserElections {

  /** The parts of an election record the filter reads, plus its name. */
  datatype ElectionInfo = ElectionInfo(name: string, admin: string, users: seq<string>)

  /** An election chain, represented by the election record it yields. */
  datatype Chain = Chain(election: ElectionInfo)

  type Chains = map<string, Chain>

  /** The user administers the election or is on its user list. */
  predicate VisibleTo(e: ElectionInfo, user: string) {
    e.admin == user || user in e.users
  }

  /** `order` is one order in which ranging over `chains` may visit its keys:
      every key exactly once. */
  predicate IsIterationOrder(chains: Chains, order: seq<string>) {
    && (forall i :: 0 <= i < |order| ==> order[i] in chains)
    && (forall k :: k in chains ==> k in order)
    && (forall i, j :: 0 <= i < j < |order| ==> order[i] != order[j])
  }

  /** Reference definition: the elections of the chains visited in `order`
      that the user may see, in visiting order. */
  function Matches(chains: Chains, order: seq<string>, user: string): seq<ElectionInfo>
    requires forall i :: 0 <= i < |order| ==> order[i] in chains
  {
    if |order| == 0 then []
    else
      var e := chains[order[|order| - 1]].election;
      Matches(chains, order[..|order| - 1], user) + (if VisibleTo(e, user) then [e] else [])
  }

  /** The chains whose election the user may see. */
  function VisibleKeys(chains: Chains, user: string): set<string> {
    set k | k in chains && VisibleTo(chains[k].election, user)
  }

  /** The chains that yield election `e`, when the user may see `e`. */
  function KeysShowing(chains: Chains, user: string, e: ElectionInfo): set<string> {
    set k | k in chains && chains[k].election == e && VisibleTo(e, user)
  }

  /** Collects the elections visible to `user`, visiting the chains in
      `order`: the administrator check first, then a scan of the user list
      that stops at the first hit. */
  method ElectionsForUser(chains: Chains, order: seq<string>, user: string)
    returns (elections: seq<ElectionInfo>)
    requires IsIterationOrder(chains, order)
    ensures elections == Matches(chains, order, user)
    ensures forall e :: e in elections <==> exists k :: k in chains && chains[k].election == e && VisibleTo(e, user)
    ensures |elections| == |VisibleKeys(chains, user)| <= |chains|
    ensures forall e :: multiset(elections)[e] == |KeysShowing(chains, user, e)|
  {
    elections := [];
    var i := 0;
    while i < |order|
      invariant 0 <= i <= |order|
      invariant elections == Matches(chains, order[..i], user)
    {
      assert order[..i + 1][..i] == order[..i];
      var election := chains[order[i]].election;
      if election.admin == user {
        elections := elections + [election];
      } else {
        var j := 0;
        while j < |election.users|
          invariant 0 <= j <= |election.users|
          invariant user !in election.users[..j]
          invariant elections == Matches(chains, order[..i], user)
        {
          if election.users[j] == user {
            elections := elections + [election];
            break;
          }
          assert election.users[..j + 1] == election.users[..j] + [election.users[j]];
          j := j + 1;
        }
        assert j == |election.users| ==> election.users[..j] == election.users;
      }
      i := i + 1;
    }
    assert order[..i] == order;
    MatchesSummary(chains, order, user);
  }

  /** What the matches over a full iteration order amount to, independently of
      that order. */
  lemma MatchesSummary(chains: Chains, order: seq<string>, user: string)
    requires IsIterationOrder(chains, order)
    ensures forall e :: e in Matches(chains, order, user) <==>
              exists k :: k in chains && chains[k].election == e && VisibleTo(e, user)
    ensures |Matches(chains, order, user)| == |VisibleKeys(chains, user)| <= |chains|
    ensures forall e :: multiset(Matches(chains, order, user))[e] == |KeysShowing(chains, user, e)|
  {
    MatchesMembers(chains, order, user);
    MatchesLength(chains, order, user);
    assert VisibleKeys(chains, user) == VisitedVisible(chains, order, user);
    assert |VisibleKeys(chains, user)| <= |chains| by {
      assert VisibleKeys(chains, user) <= chains.Keys;
      SubsetCard(VisibleKeys(chains, user), chains.Keys);
    }
    forall e ensures multiset(Matches(chains, order, user))[e] == |KeysShowing(chains, user, e)| {
      MatchesCount(chains, order, user, e);
      assert KeysShowing(chains, user, e) == VisitedShowing(chains, order, user, e);
    }
  }

  lemma SubsetCard<T>(a: set<T>, b: set<T>)
    requires a <= b
    ensures |a| <= |b|
  {
    assert b == a + (b - a);
  }

  /** The visited chains whose election the user may see. */
  function VisitedVisible(chains: Chains, order: seq<string>, user: string): set<string> {
    set k | k in chains && k in order && VisibleTo(chains[k].election, user)
  }

  /** The visited chains that yield election `e`, when the user may see it. */
  function VisitedShowing(chains: Chains, order: seq<string>, user: string, e: ElectionInfo): set<string> {
    set k | k in chains && k in order && chains[k].election == e && VisibleTo(e, user)
  }

  /** In a list of distinct keys, the last one does not occur before it. */
  lemma LastIsNew(order: seq<string>)
    requires |order| > 0
    requires forall i, j :: 0 <= i < j < |order| ==> order[i] != order[j]
    ensures order[|order| - 1] !in order[..|order| - 1]
  {
    var front := order[..|order| - 1];
    forall i | 0 <= i < |front| ensures front[i] != order[|order| - 1] {
      assert front[i] == order[i];
    }
  }

  /** An election is matched exactly when some visited chain yields it and
      the user may see it. */
  lemma {:induction false} MatchesMembers(chains: Chains, order: seq<string>, user: string)
    requires forall i :: 0 <= i < |order| ==> order[i] in chains
    ensures forall e :: e in Matches(chains, order, user) <==>
              exists k :: k in order && chains[k].election == e && VisibleTo(e, user)
  {
    if |order| > 0 {
      var front := order[..|order| - 1];
      MatchesMembers(chains, front, user);
      forall e | exists k :: k in order && chains[k].election == e && VisibleTo(e, user)
        ensures e in Matches(chains, order, user)
      {
        var k :| k in order && chains[k].election == e && VisibleTo(e, user);
        if k != order[|order| - 1] {
          assert k in front by {
            var i :| 0 <= i < |order| && order[i] == k;
            assert front[i] == k;
          }
        }
      }
    }
  }

  /** Over distinct visited chains, the number of matches is the number of
      visited chains the user may see. */
  lemma {:induction false} MatchesLength(chains: Chains, order: seq<string>, user: string)
    requires forall i :: 0 <= i < |order| ==> order[i] in chains
    requires forall i, j :: 0 <= i < j < |order| ==> order[i] != order[j]
    ensures |Matches(chains, order, user)| == |VisitedVisible(chains, order, user)|
  {
    if |order| == 0 {
      assert VisitedVisible(chains, order, user) == {};
    } else {
      var front := order[..|order| - 1];
      var last := order[|order| - 1];
      MatchesLength(chains, front, user);
      LastIsNew(order);
      assert order == front + [last];
      var before := VisitedVisible(chains, front, user);
      if VisibleTo(chains[last].election, user) {
        assert VisitedVisible(chains, order, user) == before + {last};
      } else {
        assert VisitedVisible(chains, order, user) == before;
      }
    }
  }

  /** Over distinct visited chains, an election occurs among the matches once
      per visited chain that yields it, when the user may see it. */
  lemma {:induction false} MatchesCount(chains: Chains, order: seq<string>, user: string, e: ElectionInfo)
    requires forall i :: 0 <= i < |order| ==> order[i] in chains
    requires forall i, j :: 0 <= i < j < |order| ==> order[i] != order[j]
    ensures multiset(Matches(chains, order, user))[e] == |VisitedShowing(chains, order, user, e)|
  {
    if |order| == 0 {
      assert VisitedShowing(chains, order, user, e) == {};
    } else {
      var front := order[..|order| - 1];
      var last := order[|order| - 1];
      var x := chains[last].election;
      var tail := if VisibleTo(x, user) then [x] else [];
      MatchesCount(chains, front, user, e);
      LastIsNew(order);
      assert order == front + [last];
      assert Matches(chains, order, user) == Matches(chains, front, user) + tail;
      assert multiset(Matches(chains, order, user)) == multiset(Matches(chains, front, user)) + multiset(tail);
      var before := VisitedShowing(chains, front, user, e);
      if x == e && VisibleTo(e, user) {
        assert VisitedShowing(chains, order, user, e) == before + {last};
      } else {
        assert multiset(tail)[e] == 0;
        assert VisitedShowing(chains, order, user, e) == before;
      }
    }
  }

  /** The order in which the chains are visited does not change which
      elections are returned, nor how often. */
  lemma OrderIrrelevant(chains: Chains, order1: seq<string>, order2: seq<string>, user: string)
    requires IsIterationOrder(chains, order1) && IsIterationOrder(chains, order2)
    ensures multiset(Matches(chains, order1, user)) == multiset(Matches(chains, order2, user))
  {
    forall e ensures multiset(Matches(chains, order1, user))[e] == multiset(Matches(chains, order2, user))[e] {
      MatchesCount(chains, order1, user, e);
      MatchesCount(chains, order2, user, e);
      assert VisitedShowing(chains, order1, user, e) == VisitedShowing(chains, order2, user, e);
    }
  }
}
