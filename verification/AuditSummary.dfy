/**
  Audit grouping, MockDashboardState.audit_summary of
  scripts/mock_dashboard_server.py.  `K` is the type of the seven-field grouping
  key, of which the account and mode filters look at two; times are numbers in
  the order of their texts.
 */
module AuditSummary {

  datatype Event<K> = Event(key: K, at: int)

  datatype Group<K> = Group(key: K, count: nat, latest: int)

  function Count<K(==)>(events: seq<Event<K>>, key: K): nat {
    if events == [] then 0
    else Count(events[..|events| - 1], key) + if events[|events| - 1].key == key then 1 else 0
  }

  function Total<K>(groups: seq<Group<K>>): nat {
    if groups == [] then 0 else Total(groups[..|groups| - 1]) + groups[|groups| - 1].count
  }

  /** No two groups have one key. */
  ghost predicate Distinct<K>(groups: seq<Group<K>>) {
    forall i, j :: 0 <= i < j < |groups| ==> groups[i].key != groups[j].key
  }

  /** A group counts its events and carries the latest time among them. */
  ghost predicate Describes<K>(g: Group<K>, events: seq<Event<K>>) {
    && g.count == Count(events, g.key) > 0
    && (forall i :: 0 <= i < |events| && events[i].key == g.key ==> events[i].at <= g.latest)
    && (exists i :: 0 <= i < |events| && events[i].key == g.key && events[i].at == g.latest)
  }

  /** Where an event with this key first appears, or the length. */
  function First<K(==)>(events: seq<Event<K>>, key: K): (i: nat)
    ensures i <= |events| && (i < |events| ==> events[i].key == key) && forall j :: 0 <= j < i ==> events[j].key != key
  {
    if events == [] || events[0].key == key then 0 else 1 + First(events[1..], key)
  }

  /** The groups stand in the order in which their keys first appear. */
  ghost predicate ByAppearance<K>(groups: seq<Group<K>>, events: seq<Event<K>>) {
    forall i, j :: 0 <= i < j < |groups| ==> First(events, groups[i].key) < First(events, groups[j].key)
  }

  /** Equally late groups stand in that order. */
  ghost predicate TiesByAppearance<K>(groups: seq<Group<K>>, events: seq<Event<K>>) {
    forall i, j :: 0 <= i < j < |groups| && groups[i].latest == groups[j].latest ==>
      First(events, groups[i].key) < First(events, groups[j].key)
  }

  ghost predicate HasGroup<K>(groups: seq<Group<K>>, key: K) {
    exists i :: 0 <= i < |groups| && groups[i].key == key
  }

  /** The groups partition the events. */
  ghost predicate Partitions<K>(groups: seq<Group<K>>, events: seq<Event<K>>) {
    && Distinct(groups)
    && (forall i :: 0 <= i < |groups| ==> Describes(groups[i], events))
    && (forall i :: 0 <= i < |events| ==> HasGroup(groups, events[i].key))
    && Total(groups) == |events|
  }

  ghost predicate Descending<K>(groups: seq<Group<K>>) {
    forall i, j :: 0 <= i < j < |groups| ==> groups[i].latest >= groups[j].latest
  }

  /** The events the filters keep, cut off at the limit. */
  function Shown<K>(events: seq<Event<K>>, keep: K -> bool, limit: nat): seq<Event<K>> {
    var rows := Matching(events, keep);
    if |rows| <= limit then rows else rows[..limit]
  }

  function Matching<K>(events: seq<Event<K>>, keep: K -> bool): seq<Event<K>> {
    if events == [] then []
    else (if keep(events[0].key) then [events[0]] else []) + Matching(events[1..], keep)
  }

  // --- grouping ------------------------------------------------------------------------

  lemma {:induction false} TotalOfUpdate<K>(groups: seq<Group<K>>, i: nat, g: Group<K>)
    requires i < |groups|
    ensures Total(groups[i := g]) == Total(groups) - groups[i].count + g.count
  {
    var last := |groups| - 1;
    if i == last {
      assert groups[i := g][..last] == groups[..last];
    } else {
      assert groups[i := g][..last] == groups[..last][i := g];
      TotalOfUpdate(groups[..last], i, g);
    }
  }

  lemma {:induction false} NoneCounted<K>(events: seq<Event<K>>, key: K)
    requires forall i :: 0 <= i < |events| ==> events[i].key != key
    ensures Count(events, key) == 0
  {
    if events != [] {
      NoneCounted(events[..|events| - 1], key);
    }
  }

  /** The same group after an event of another key. */
  lemma OtherEvent<K>(g: Group<K>, events: seq<Event<K>>, e: Event<K>)
    requires Describes(g, events) && e.key != g.key
    ensures Describes(g, events + [e])
  {
  }

  function Grown<K>(g: Group<K>, e: Event<K>): Group<K> {
    g.(count := g.count + 1, latest := if e.at > g.latest then e.at else g.latest)
  }

  lemma OwnEvent<K>(g: Group<K>, events: seq<Event<K>>, e: Event<K>)
    requires Describes(g, events) && e.key == g.key
    ensures Describes(Grown(g, e), events + [e])
  {
  }

  lemma FirstEvent<K>(events: seq<Event<K>>, e: Event<K>)
    requires forall i :: 0 <= i < |events| ==> events[i].key != e.key
    ensures Describes(Group(e.key, 1, e.at), events + [e])
  {
    NoneCounted(events, e.key);
    assert (events + [e])[..|events|] == events && (events + [e])[|events|] == e;
  }

  lemma AddGroup<K>(groups: seq<Group<K>>, events: seq<Event<K>>, e: Event<K>)
    requires Partitions(groups, events) && !HasGroup(groups, e.key)
    ensures Partitions(groups + [Group(e.key, 1, e.at)], events + [e])
  {
    hide Count, Describes, Total;
    var groups' := groups + [Group(e.key, 1, e.at)];
    FirstEvent(events, e);
    forall j | 0 <= j < |groups| ensures Describes(groups[j], events + [e]) {
      OtherEvent(groups[j], events, e);
    }
    forall i | 0 <= i < |events + [e]| ensures HasGroup(groups', (events + [e])[i].key) {
      MoreGroups(groups, groups', (events + [e])[i].key);
      assert groups'[|groups|].key == e.key;
    }
    assert Total(groups') == |events + [e]| by {
      TotalOfAppend(groups, Group(e.key, 1, e.at));
    }
  }

  lemma TotalOfAppend<K>(groups: seq<Group<K>>, g: Group<K>)
    ensures Total(groups + [g]) == Total(groups) + g.count
  {
  }

  lemma MoreGroups<K>(groups: seq<Group<K>>, groups': seq<Group<K>>, key: K)
    requires |groups'| >= |groups| && forall i :: 0 <= i < |groups| ==> groups'[i].key == groups[i].key
    ensures HasGroup(groups, key) ==> HasGroup(groups', key)
  {
  }

  lemma GrowGroup<K>(groups: seq<Group<K>>, events: seq<Event<K>>, e: Event<K>, i: nat)
    requires Partitions(groups, events) && i < |groups| && groups[i].key == e.key
    ensures Partitions(groups[i := Grown(groups[i], e)], events + [e])
  {
    hide Count, Describes, Total;
    var groups' := groups[i := Grown(groups[i], e)];
    OwnEvent(groups[i], events, e);
    forall j | 0 <= j < |groups| && j != i ensures Describes(groups[j], events + [e]) {
      OtherEvent(groups[j], events, e);
    }
    forall k | 0 <= k < |events + [e]| ensures HasGroup(groups', (events + [e])[k].key) {
      MoreGroups(groups, groups', (events + [e])[k].key);
      assert groups'[i].key == e.key;
    }
    TotalOfUpdate(groups, i, Grown(groups[i], e));
  }

  /** One more event does not move the first appearance of a key that has been seen, and comes after it. */
  lemma FirstStays<K>(events: seq<Event<K>>, e: Event<K>, key: K)
    ensures First(events, key) < |events| ==> First(events + [e], key) == First(events, key)
    ensures e.key == key ==> First(events + [e], key) == First(events, key)
  {
    var i, j := First(events, key), First(events + [e], key);
    assert (events + [e])[|events|] == e && forall k :: 0 <= k < |events| ==> (events + [e])[k] == events[k];
  }

  lemma AppearanceStays<K>(groups: seq<Group<K>>, groups': seq<Group<K>>, events: seq<Event<K>>, e: Event<K>)
    requires Partitions(groups, events) && ByAppearance(groups, events)
    requires |groups| <= |groups'| <= |groups| + 1 && forall i :: 0 <= i < |groups| ==> groups'[i].key == groups[i].key
    requires |groups'| > |groups| ==> groups'[|groups|].key == e.key && !HasGroup(groups, e.key)
    ensures ByAppearance(groups', events + [e])
  {
    hide First, Count, Total;
    forall i | 0 <= i < |groups| ensures First(events + [e], groups[i].key) == First(events, groups[i].key) < |events| {
      assert Describes(groups[i], events);
      FirstStays(events, e, groups[i].key);
    }
    FirstStays(events, e, e.key);
    assert |groups'| > |groups| ==> First(events, e.key) == |events|;
  }

  lemma AddAppears<K>(groups: seq<Group<K>>, events: seq<Event<K>>, e: Event<K>)
    requires Partitions(groups, events) && ByAppearance(groups, events) && !HasGroup(groups, e.key)
    ensures ByAppearance(groups + [Group(e.key, 1, e.at)], events + [e])
  {
    hide Partitions, ByAppearance, HasGroup;
    AppearanceStays(groups, groups + [Group(e.key, 1, e.at)], events, e);
  }

  lemma GrowAppears<K>(groups: seq<Group<K>>, events: seq<Event<K>>, e: Event<K>, i: nat)
    requires Partitions(groups, events) && ByAppearance(groups, events) && i < |groups|
    ensures ByAppearance(groups[i := Grown(groups[i], e)], events + [e])
  {
    hide Partitions, ByAppearance, HasGroup;
    AppearanceStays(groups, groups[i := Grown(groups[i], e)], events, e);
  }

  /** groups.setdefault: where the key is, or the end. */
  method FindGroup<K(==)>(groups: seq<Group<K>>, key: K) returns (i: nat)
    ensures i <= |groups| && (i < |groups| ==> groups[i].key == key) && (i == |groups| ==> !HasGroup(groups, key))
  {
    i := 0;
    while i < |groups| && groups[i].key != key
      invariant i <= |groups| && forall j :: 0 <= j < i ==> groups[j].key != key
    {
      i := i + 1;
    }
  }

  /** One turn of the grouping loop, as a fact about values. */
  lemma GroupStep<K>(groups: seq<Group<K>>, events: seq<Event<K>>, n: nat, i: nat)
    requires n < |events| && i <= |groups|
    requires Partitions(groups, events[..n]) && ByAppearance(groups, events[..n])
    requires if i < |groups| then groups[i].key == events[n].key else !HasGroup(groups, events[n].key)
    ensures
      var e := events[n];
      var groups' := if i < |groups| then groups[i := Grown(groups[i], e)] else groups + [Group(e.key, 1, e.at)];
      Partitions(groups', events[..n + 1]) && ByAppearance(groups', events[..n + 1])
  {
    hide Partitions, ByAppearance, HasGroup, Grown;
    var e := events[n];
    assert events[..n + 1] == events[..n] + [e];
    if i < |groups| {
      GrowGroup(groups, events[..n], e, i);
      GrowAppears(groups, events[..n], e, i);
    } else {
      AddGroup(groups, events[..n], e);
      AddAppears(groups, events[..n], e);
    }
  }

  method GroupEvents<K(==)>(events: seq<Event<K>>) returns (groups: seq<Group<K>>)
    ensures Partitions(groups, events) && ByAppearance(groups, events)
  {
    groups := [];
    for n := 0 to |events|
      invariant Partitions(groups, events[..n]) && ByAppearance(groups, events[..n])
    {
      hide Partitions, ByAppearance, HasGroup, Grown;
      var e := events[n];
      var i := FindGroup(groups, e.key);
      GroupStep(groups, events, n, i);
      if i == |groups| {
        groups := groups + [Group(e.key, 1, e.at)];
      } else {
        groups := groups[i := Grown(groups[i], e)];
      }
    }
    assert events[..|events|] == events;
  }

  // --- newest first ------------------------------------------------------------------------

  /** Behind every group that is at least as late. */
  function Place<K>(sorted: seq<Group<K>>, g: Group<K>): (i: nat)
    ensures i <= |sorted|
    ensures Descending(sorted) ==>
      (forall j :: 0 <= j < i ==> sorted[j].latest >= g.latest) && (forall j :: i <= j < |sorted| ==> sorted[j].latest < g.latest)
  {
    if sorted == [] then 0
    else if sorted[|sorted| - 1].latest < g.latest then Place(sorted[..|sorted| - 1], g)
    else |sorted|
  }

  /** The element at `p` moved forward to `i`. */
  function Moved<K>(s: seq<Group<K>>, i: nat, p: nat): seq<Group<K>>
    requires i <= p < |s|
  {
    s[..i] + [s[p]] + s[i..p] + s[p + 1..]
  }

  function Source(k: nat, i: nat, p: nat): nat {
    if k < i || k > p then k else if k == i then p else k - 1
  }

  lemma MovedAt<K>(s: seq<Group<K>>, i: nat, p: nat)
    requires i <= p < |s|
    ensures |Moved(s, i, p)| == |s|
    ensures forall k :: 0 <= k < |s| ==> Source(k, i, p) < |s| && Moved(s, i, p)[k] == s[Source(k, i, p)]
  {
  }

  lemma MovedTotal<K>(s: seq<Group<K>>, i: nat, p: nat)
    requires i <= p < |s|
    ensures Total(Moved(s, i, p)) == Total(s)
  {
    hide Total;
    TotalOfConcat(s[..i] + [s[p]] + s[i..p], s[p + 1..]);
    TotalOfConcat(s[..i] + [s[p]], s[i..p]);
    TotalOfConcat(s[..i], [s[p]]);
    TotalOfConcat(s[..i], s[i..p]);
    TotalOfConcat(s[..i] + s[i..p], [s[p]]);
    TotalOfConcat(s[..i] + s[i..p] + [s[p]], s[p + 1..]);
    assert s[..i] + s[i..p] + [s[p]] + s[p + 1..] == s;
  }

  lemma {:induction false} TotalOfConcat<K>(a: seq<Group<K>>, b: seq<Group<K>>)
    ensures Total(a + b) == Total(a) + Total(b)
  {
    if b == [] {
      assert a + b == a;
    } else {
      assert (a + b)[..|a + b| - 1] == a + b[..|b| - 1];
      TotalOfConcat(a, b[..|b| - 1]);
    }
  }

  lemma MovedPartitions<K>(s: seq<Group<K>>, i: nat, p: nat, events: seq<Event<K>>)
    requires i <= p < |s| && Partitions(s, events)
    ensures Partitions(Moved(s, i, p), events)
  {
    hide Moved, Describes, Total;
    MovedAt(s, i, p);
    MovedTotal(s, i, p);
    var t := Moved(s, i, p);
    forall k | 0 <= k < |events| ensures HasGroup(t, events[k].key) {
      var j :| 0 <= j < |s| && s[j].key == events[k].key;
      assert t[if j < i || j > p then j else if j == p then i else j + 1].key == s[j].key;
    }
  }

  /** The first `n` groups are sorted, ties by appearance; the others are still in order of appearance, after all of them. */
  ghost predicate SortedUpTo<K>(s: seq<Group<K>>, n: nat, events: seq<Event<K>>)
    requires n <= |s|
  {
    && (forall j, k :: 0 <= j < k < n ==> s[j].latest >= s[k].latest)
    && (forall j, k :: 0 <= j < k < n && s[j].latest == s[k].latest ==> First(events, s[j].key) < First(events, s[k].key))
    && (forall j, k :: 0 <= j < k < |s| && n <= k ==> First(events, s[j].key) < First(events, s[k].key))
  }

  /** One turn of an insertion sort. */
  lemma MovedSorts<K>(s: seq<Group<K>>, p: nat, events: seq<Event<K>>)
    requires p < |s| && SortedUpTo(s, p, events)
    ensures SortedUpTo(Moved(s, Place(s[..p], s[p]), p), p + 1, events)
  {
    hide Moved, First, Place;
    var i := Place(s[..p], s[p]);
    MovedAt(s, i, p);
    var t := Moved(s, i, p);
    assert Descending(s[..p]);
    assert forall k :: 0 <= k < p ==> s[..p][k] == s[k];
    forall j, k | 0 <= j < k < |s|
      ensures k <= p ==> t[j].latest >= t[k].latest
      ensures k <= p && t[j].latest == t[k].latest ==> First(events, t[j].key) < First(events, t[k].key)
      ensures p < k ==> First(events, t[j].key) < First(events, t[k].key)
    {
      var j', k' := Source(j, i, p), Source(k, i, p);
      assert t[j] == s[j'] && t[k] == s[k'];
      assert k == i || j == i || j' < k';
    }
  }

  /** audit_summary: the groups partition what the filters and the limit let through, the newest first, ties in order of appearance. */
  method Summarize<K(==)>(events: seq<Event<K>>, keep: K -> bool, warns: K -> bool, limit: nat)
    returns (groups: seq<Group<K>>, count: nat, warnings: nat)
    ensures count == |Shown(events, keep, limit)| && warnings == |Matching(Shown(events, keep, limit), warns)|
    ensures Partitions(groups, Shown(events, keep, limit))
    ensures Descending(groups) && TiesByAppearance(groups, Shown(events, keep, limit))
  {
    hide Partitions, Moved, Place, Shown, First;
    var shown := Shown(events, keep, limit);
    count, warnings := |shown|, |Matching(shown, warns)|;
    groups := GroupEvents(shown);
    var total := |groups|;
    for n := 0 to total
      invariant |groups| == total && Partitions(groups, shown) && SortedUpTo(groups, n, shown)
    {
      hide SortedUpTo;
      var i := Place(groups[..n], groups[n]);
      MovedPartitions(groups, i, n, shown);
      MovedSorts(groups, n, shown);
      MovedAt(groups, i, n);
      groups := Moved(groups, i, n);
    }
  }

  // --- what is shown --------------------------------------------------------------------

  /** The `k`-th event is one that is kept. */
  predicate KeptAt<K>(events: seq<Event<K>>, keep: K -> bool, k: int) {
    0 <= k < |events| && keep(events[k].key)
  }

  ghost predicate Ascending(at: seq<int>) {
    forall i, j :: 0 <= i < j < |at| ==> at[i] < at[j]
  }

  /** `part` stands at the places `at` of `whole`. */
  ghost predicate StandsAt<K(!new)>(part: seq<Event<K>>, whole: seq<Event<K>>, at: seq<int>) {
    |at| == |part| && forall i :: 0 <= i < |at| ==> 0 <= at[i] < |whole| && part[i] == whole[at[i]]
  }

  function Shifted(at: seq<int>): seq<int> {
    seq(|at|, i requires 0 <= i < |at| => at[i] + 1)
  }

  lemma ShiftedHas(at: seq<int>, k: int)
    ensures k in Shifted(at) <==> k - 1 in at
  {
    if k - 1 in at {
      var i :| 0 <= i < |at| && at[i] == k - 1;
      assert Shifted(at)[i] == k;
    }
  }

  /** One more event in front. */
  lemma TakesOneMore<K(!new)>(events: seq<Event<K>>, keep: K -> bool, later: seq<int>, matched: seq<Event<K>>)
    requires events != [] && Ascending(later) && StandsAt(matched, events[1..], later)
    requires forall k :: k in later <==> KeptAt(events[1..], keep, k)
    ensures
      var first := keep(events[0].key);
      var at := (if first then [0] else []) + Shifted(later);
      && Ascending(at) && StandsAt((if first then [events[0]] else []) + matched, events, at)
      && forall k :: k in at <==> KeptAt(events, keep, k)
  {
    var at := (if keep(events[0].key) then [0] else []) + Shifted(later);
    forall k ensures k in at <==> KeptAt(events, keep, k) {
      ShiftedHas(later, k);
      assert k > 0 ==> (KeptAt(events, keep, k) <==> KeptAt(events[1..], keep, k - 1));
      assert k == 0 ==> !KeptAt(events[1..], keep, k - 1);
    }
  }

  /** The kept events, in order, with their places. */
  lemma {:induction false} MatchingTakes<K(!new)>(events: seq<Event<K>>, keep: K -> bool) returns (at: seq<int>)
    ensures Ascending(at) && StandsAt(Matching(events, keep), events, at)
    ensures forall k :: k in at <==> KeptAt(events, keep, k)
  {
    if events == [] {
      at := [];
    } else {
      var later := MatchingTakes(events[1..], keep);
      TakesOneMore(events, keep, later, Matching(events[1..], keep));
      at := (if keep(events[0].key) then [0] else []) + Shifted(later);
      hide Ascending, StandsAt, KeptAt;
    }
  }

  /**
    The events shown are the first kept ones, in order and with none passed
    over: all of them if they are no more than the limit, else as many as that.
   */
  lemma ShowsTheFirst<K(!new)>(events: seq<Event<K>>, keep: K -> bool, limit: nat) returns (at: seq<int>)
    ensures Ascending(at) && StandsAt(Shown(events, keep, limit), events, at) && |at| <= limit
    ensures forall k :: k in at ==> KeptAt(events, keep, k)
    ensures forall k :: KeptAt(events, keep, k) && k !in at ==> |at| == limit && forall i :: 0 <= i < |at| ==> at[i] < k
  {
    var all := MatchingTakes(events, keep);
    at := if |all| <= limit then all else all[..limit];
    forall k | KeptAt(events, keep, k) && k !in at ensures |at| == limit && forall i :: 0 <= i < |at| ==> at[i] < k {
      forall i | 0 <= i < |at| ensures all[i] != k {
        assert at[i] in at;
      }
      var j :| 0 <= j < |all| && all[j] == k;
    }
    forall k | k in at ensures k in all {
    }
  }

  /** The number of kept events is what it should be. */
  lemma MatchingCounts<K(!new)>(events: seq<Event<K>>, keep: K -> bool)
    ensures |Matching(events, keep)| == |set k | 0 <= k < |events| && KeptAt(events, keep, k)|
  {
    var at := MatchingTakes(events, keep);
    ElementsCounted(at);
    assert (set k | 0 <= k < |events| && KeptAt(events, keep, k)) == (set k | k in at);
  }

  lemma {:induction false} ElementsCounted(at: seq<int>)
    requires Ascending(at)
    ensures |set k | k in at| == |at|
  {
    if at != [] {
      var init, last := at[..|at| - 1], at[|at| - 1];
      ElementsCounted(init);
      assert forall k :: k in at <==> k in init || k == last;
      assert (set k | k in at) == (set k | k in init) + {last};
      assert forall i :: 0 <= i < |init| ==> init[i] < last;
    }
  }
}
