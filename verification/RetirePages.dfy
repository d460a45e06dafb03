/**
  What a page remembers of its uses: the newest token of each queue slot, whatever the order they
  came in; with the registry's slots the list never runs full.
*/
module RetirePages {
  import opened RetireModel

  predicate OnePerTag(tokens: seq<nat>) {
    forall i, j :: 0 <= i < j < |tokens| ==> TagOf(tokens[i]) != TagOf(tokens[j])
  }

  predicate OfRegistry(token: nat) {
    1 <= TagOf(token) <= MAX_QUEUES
  }

  predicate IsNewest(token: nat, seen: seq<nat>) {
    token in seen && forall x :: x in seen && TagOf(x) == TagOf(token) ==> x <= token
  }

  /** The page lists the newest token of each slot and nothing else, and never gave up. */
  ghost predicate ListsNewest(p: Page, seen: seq<nat>) {
    && !p.unknown && OnePerTag(p.tokens)
    && (forall t :: t in p.tokens ==> IsNewest(t, seen))
    && (forall t :: IsNewest(t, seen) ==> t in p.tokens)
  }

  function RecordAll(p: Page, tokens: seq<nat>): Page {
    if tokens == [] then p else RetireRecord(RecordAll(p, tokens[..|tokens| - 1]), tokens[|tokens| - 1])
  }

  // ---------------------------------------------------------------- there is always room

  function Tags(tokens: seq<nat>): set<nat> {
    set i | 0 <= i < |tokens| :: TagOf(tokens[i])
  }

  lemma {:induction false} TagsCount(tokens: seq<nat>)
    requires OnePerTag(tokens)
    ensures |Tags(tokens)| == |tokens|
  {
    if tokens != [] {
      var last := |tokens| - 1;
      TagsCount(tokens[..last]);
      assert Tags(tokens) == Tags(tokens[..last]) + {TagOf(tokens[last])};
    }
  }

  function UpTo(n: nat): (r: set<nat>)
    ensures |r| == n && forall t :: t in r <==> 1 <= t <= n
  {
    if n == 0 then {} else UpTo(n - 1) + {n}
  }

  lemma SubsetIsNoLarger(a: set<nat>, b: set<nat>)
    requires a <= b
    ensures |a| <= |b|
  {
    assert b == a + (b - a);
  }

  lemma RoomBelow(tokens: seq<nat>, tag: nat, n: nat)
    requires OnePerTag(tokens) && 1 <= tag <= n && forall t :: t in tokens ==> 1 <= TagOf(t) <= n && TagOf(t) != tag
    ensures |tokens| < n
  {
    hide OnePerTag;
    TagsCount(tokens);
    forall x | x in Tags(tokens) + {tag} ensures x in UpTo(n) {}
    SubsetIsNoLarger(Tags(tokens) + {tag}, UpTo(n));
    assert tag !in Tags(tokens);
  }

  /** A slot that the list does not have yet leaves a place for itself. */
  lemma ThereIsRoom(tokens: seq<nat>, token: nat)
    requires OnePerTag(tokens) && OfRegistry(token) && forall t :: t in tokens ==> OfRegistry(t) && TagOf(t) != TagOf(token)
    ensures |tokens| < MAX_QUEUES
  {
    RoomBelow(tokens, TagOf(token), MAX_QUEUES);
  }

  // ---------------------------------------------------------------- recording

  lemma NewestIsOne(t: nat, u: nat, seen: seq<nat>)
    requires IsNewest(t, seen) && IsNewest(u, seen) && TagOf(t) == TagOf(u)
    ensures t == u
  {}

  lemma {:induction false} NewestOfSlot(seen: seq<nat>, x: nat) returns (t: nat)
    requires x in seen
    ensures IsNewest(t, seen) && TagOf(t) == TagOf(x)
  {
    var last := |seen| - 1;
    if exists y :: y in seen[..last] && TagOf(y) == TagOf(x) {
      var y :| y in seen[..last] && TagOf(y) == TagOf(x);
      var u := NewestOfSlot(seen[..last], y);
      t := if TagOf(seen[last]) == TagOf(x) && seen[last] > u then seen[last] else u;
      assert seen == seen[..last] + [seen[last]];
    } else {
      assert seen == seen[..last] + [seen[last]];
      t := x;
    }
  }

  lemma RecordedNewest(p: Page, seen: seq<nat>, token: nat)
    requires ListsNewest(p, seen) && OfRegistry(token) && forall x :: x in seen ==> OfRegistry(x)
    ensures ListsNewest(RetireRecord(p, token), seen + [token])
    ensures RetireRecord(p, token) == p.(tokens := RetireRecord(p, token).tokens)
  {
    var r, i := RetireRecord(p, token), FindTag(p.tokens, TagOf(token), 0);
    assert token != 0;
    if i == |p.tokens| { ThereIsRoom(p.tokens, token); }
    forall t | t in r.tokens ensures IsNewest(t, seen + [token]) {
      if t != token { assert t in p.tokens; }
      if t == token && i == |p.tokens| { NothingOfSlot(p, seen, token); }
      if i < |p.tokens| { assert IsNewest(p.tokens[i], seen); }
    }
    forall t | IsNewest(t, seen + [token]) ensures t in r.tokens {
      if t in seen {
        assert IsNewest(t, seen);
        var k :| 0 <= k < |p.tokens| && p.tokens[k] == t;
        assert k != i ==> r.tokens[k] == t;
        if k == i { assert token <= t by { assert token in seen + [token]; } assert r.tokens == p.tokens; }
      } else {
        NewestArrives(p, seen, token);
      }
    }
  }

  lemma NothingOfSlot(p: Page, seen: seq<nat>, token: nat)
    requires ListsNewest(p, seen) && FindTag(p.tokens, TagOf(token), 0) == |p.tokens|
    ensures forall x :: x in seen ==> TagOf(x) != TagOf(token)
  {
    forall x | x in seen ensures TagOf(x) != TagOf(token) {
      var t := NewestOfSlot(seen, x);
      assert t in p.tokens;
    }
  }

  /** A token that is newest and was not there before is listed. */
  lemma NewestArrives(p: Page, seen: seq<nat>, token: nat)
    requires ListsNewest(p, seen) && OfRegistry(token) && (forall x :: x in seen ==> OfRegistry(x))
    requires IsNewest(token, seen + [token]) && token !in seen
    ensures token in RetireRecord(p, token).tokens
  {
    var i := FindTag(p.tokens, TagOf(token), 0);
    if i == |p.tokens| {
      ThereIsRoom(p.tokens, token);
      assert RetireRecord(p, token).tokens[i] == token;
    } else {
      assert IsNewest(p.tokens[i], seen) && p.tokens[i] in seen + [token];
      assert RetireRecord(p, token).tokens[i] == token;
    }
  }

  /**
    Recording tokens of the registry's slots, in any order and number, on a page that remembers
    nothing: it never gives up and lists exactly the newest token of each slot.
  */
  lemma {:induction false} PageRemembersNewest(p: Page, tokens: seq<nat>)
    requires p.tokens == [] && !p.unknown && forall t :: t in tokens ==> OfRegistry(t)
    ensures ListsNewest(RecordAll(p, tokens), tokens)
    ensures RecordAll(p, tokens) == p.(tokens := RecordAll(p, tokens).tokens)
    decreases |tokens|
  {
    if tokens != [] {
      var last := |tokens| - 1;
      PageRemembersNewest(p, tokens[..last]);
      RecordedNewest(RecordAll(p, tokens[..last]), tokens[..last], tokens[last]);
      assert tokens == tokens[..last] + [tokens[last]];
    }
  }
}
