/** Ground-truth labels and what it means for them to be exact about a generated log. */
module Labels {
  import opened Ordering
  import opened RefDetect
  import Timestamps

  /** How an incident was built. */
  datatype Kind = Positive | BoundaryPositive | BoundaryNegative | HardNegative | MissingContext

  datatype Label = Label(behaviour: Behaviour, kind: Kind, expected: Status, groupKeys: seq<string>,
                         trigger: Option<string>, eventIds: seq<string>)

  /** What verification compares: which rule spoke about which event, and how. */
  type Finding = (Behaviour, string, Status)

  function FindingOf(a: Alert): Finding { (a.behaviour, a.eventId, a.status) }

  function Spoken(alerts: set<Alert>): set<Finding> { set a | a in alerts :: FindingOf(a) }

  /** What rule `l.behaviour` said about the label's own events. */
  function Mine(l: Label, said: set<Finding>): set<Finding> {
    set f | f in said && f.0 == l.behaviour && f.1 in l.eventIds
  }

  /** The label's rule says exactly the expected thing about its trigger and nothing else about its events. */
  predicate LabelRight(l: Label, said: set<Finding>) {
    if l.expected.NoAlert? then l.trigger.None? && Mine(l, said) == {}
    else l.trigger.Some? && Mine(l, said) == {(l.behaviour, l.trigger.value, l.expected)}
  }

  function Expected(labels: seq<Label>): set<Finding> {
    set l | l in labels && l.expected != NoAlert && l.trigger.Some? :: (l.behaviour, l.trigger.value, l.expected)
  }

  /** The detector says exactly what the labels expect, and every label is right. */
  ghost predicate Exact(said: set<Finding>, labels: seq<Label>) {
    said == Expected(labels) && forall l | l in labels :: LabelRight(l, said)
  }

  function IdsOf(events: seq<Event>): set<string> { set e | e in events :: e.id }

  // ------------------------------------------------------------------ fresh entities

  function AccountId(n: nat): string { "ixu" + Timestamps.ZeroPad(n, 7) }

  function HostId(n: nat): string { "ixh" + Timestamps.ZeroPad(n, 7) }

  function EventId(n: nat): string { "e" + Timestamps.ZeroPad(n, 12) }

  lemma {:induction false} SamePad(prefix: string, m: nat, n: nat, width: nat)
    requires prefix + Timestamps.ZeroPad(m, width) == prefix + Timestamps.ZeroPad(n, width)
    ensures m == n
  {
    var a, b := Timestamps.ZeroPad(m, width), Timestamps.ZeroPad(n, width);
    assert (prefix + a)[|prefix|..] == a && (prefix + b)[|prefix|..] == b;
    Timestamps.NumberOfZeroPad(m, width);
    Timestamps.NumberOfZeroPad(n, width);
  }

  predicate FirstLetter(x: string, c: char) { x != "" && x[0] == c }

  /** A counter's ids all differ and begin with the same letter. */
  ghost predicate Naming(name: nat -> string, c: char) {
    && (forall j: nat, k: nat | j < k :: name(j) != name(k))
    && forall k: nat :: FirstLetter(name(k), c)
  }

  lemma {:induction false} AccountNaming()
    ensures Naming(AccountId, 'i')
  {
    forall j: nat, k: nat | j < k ensures AccountId(j) != AccountId(k) {
      if AccountId(j) == AccountId(k) { SamePad("ixu", j, k, 7); }
    }
  }

  lemma {:induction false} HostNaming()
    ensures Naming(HostId, 'i')
  {
    forall j: nat, k: nat | j < k ensures HostId(j) != HostId(k) {
      if HostId(j) == HostId(k) { SamePad("ixh", j, k, 7); }
    }
  }

  lemma {:induction false} EventNaming()
    ensures Naming(EventId, 'e')
  {
    forall j: nat, k: nat | j < k ensures EventId(j) != EventId(k) {
      if EventId(j) == EventId(k) { SamePad("e", j, k, 12); }
    }
  }

  /** The ids in `used` were handed out by a counter that stands at `n`: the ids still to come are not among them. */
  ghost predicate HandedOut(name: nat -> string, c: char, n: nat, used: set<string>) {
    && Naming(name, c)
    && (forall k: nat | k > n :: name(k) !in used)
    && (forall x | x in used :: FirstLetter(x, c))
  }

  lemma {:induction false} NextId(name: nat -> string, c: char, n: nat, used: set<string>)
    requires HandedOut(name, c, n, used)
    ensures name(n + 1) !in used && HandedOut(name, c, n + 1, used + {name(n + 1)})
  {}

  // ------------------------------------------------------------------ the generator's invariant

  /** The log uses only these ids, accounts and hosts. */
  ghost predicate Uses(events: seq<Event>, policy: seq<PolicyRow>, ids: set<string>, accounts: set<string>, hosts: set<string>) {
    && (forall e | e in events :: e.id in ids && e.account in accounts && e.host in hosts)
    && (forall r | r in policy :: r.account in accounts)
  }

  /** The log uses only these ids, accounts and hosts, and the labels are exact about it. */
  ghost predicate Sound(p: Params, events: seq<Event>, labels: seq<Label>, policy: seq<PolicyRow>,
                        ids: set<string>, accounts: set<string>, hosts: set<string>) {
    && Uses(events, policy, ids, accounts, hosts)
    && OwnIds(labels, ids)
    && Exact(Spoken(Findings(events, PolicyMap(policy), p)), labels)
  }

  lemma {:induction false} PolicyMapAppend(a: seq<PolicyRow>, b: seq<PolicyRow>)
    ensures PolicyMap(a + b) == PolicyMap(a) + PolicyMap(b)
  {
    if b == [] {
      assert a + b == a;
    } else {
      PolicyMapAppend(a, b[..|b| - 1]);
      assert (a + b)[..|a + b| - 1] == a + b[..|b| - 1];
    }
  }

  lemma {:induction false} PolicyMapMember(rows: seq<PolicyRow>, k: string)
    ensures k in PolicyMap(rows) <==> exists r :: r in rows && r.account == k
    ensures k in PolicyMap(rows) ==> PolicyMap(rows)[k] in rows && PolicyMap(rows)[k].account == k
  {
    if rows != [] {
      var rest, last := rows[..|rows| - 1], rows[|rows| - 1];
      PolicyMapMember(rest, k);
      assert forall r :: r in rows <==> r in rest || r == last;
    }
  }

  lemma {:induction false} SaidAboutOwnEvents(events: seq<Event>, m: Policy, p: Params)
    ensures forall f | f in Spoken(Findings(events, m, p)) :: f.1 in IdsOf(events)
  {
    forall r: Behaviour, a | a in AlertsOf(events, m, p, r) ensures a.eventId in IdsOf(events) {
      AboutAlertsOf(events, m, p, r);
      var e :| e in events && a.eventId == e.id;
    }
  }

  lemma {:induction false} ExactUnion(said: set<Finding>, labels: seq<Label>, ids: set<string>, said': set<Finding>, labels': seq<Label>, ids': set<string>)
    requires Exact(said, labels) && Exact(said', labels') && ids !! ids'
    requires forall f | f in said :: f.1 in ids
    requires forall f | f in said' :: f.1 in ids'
    requires forall l, id | l in labels && id in l.eventIds :: id in ids
    requires forall l, id | l in labels' && id in l.eventIds :: id in ids'
    ensures Exact(said + said', labels + labels')
  {
    forall l | l in labels ensures LabelRight(l, said + said') { assert Mine(l, said + said') == Mine(l, said); }
    forall l | l in labels' ensures LabelRight(l, said + said') { assert Mine(l, said + said') == Mine(l, said'); }
    assert Expected(labels + labels') == Expected(labels) + Expected(labels');
  }

  predicate OwnIds(labels: seq<Label>, ids: set<string>) { forall l, id | l in labels && id in l.eventIds :: id in ids }

  lemma {:induction false} PoliciesAgree(policy: seq<PolicyRow>, rows: seq<PolicyRow>, events: seq<Event>, a: set<string>)
    requires forall e | e in events :: e.account in a
    requires forall r | r in rows :: r.account !in a
    ensures SamePolicyFor(events, PolicyMap(policy + rows), PolicyMap(policy))
    ensures SamePolicyFor(events, PolicyMap(rows + policy), PolicyMap(policy))
  {
    PolicyMapAppend(policy, rows);
    PolicyMapAppend(rows, policy);
    forall k ensures k in PolicyMap(rows) ==> k !in a { PolicyMapMember(rows, k); }
  }

  /** Two logs whose labels are exact and that share no event id, account or host: the labels are exact about both together. */
  lemma {:induction false} SoundUnion(p: Params, events: seq<Event>, labels: seq<Label>, policy: seq<PolicyRow>, i: set<string>, a: set<string>, h: set<string>,
                   inc: seq<Event>, more: seq<Label>, rows: seq<PolicyRow>, i': set<string>, a': set<string>, h': set<string>)
    requires Sound(p, events, labels, policy, i, a, h) && Sound(p, inc, more, rows, i', a', h')
    requires i !! i' && a !! a' && h !! h'
    ensures Sound(p, events + inc, labels + more, policy + rows, i + i', a + a', h + h')
  {
    PoliciesAgree(policy, rows, events, a);
    PoliciesAgree(rows, policy, inc, a');
    StillExact(p, events, labels, PolicyMap(policy), i, inc, more, PolicyMap(rows), i', PolicyMap(policy + rows));
    UsesUnion(events, policy, i, a, h, inc, rows, i', a', h');
    AppendOwnIds(labels, i, more, i');
  }

  lemma {:induction false} UsesUnion(events: seq<Event>, policy: seq<PolicyRow>, i: set<string>, a: set<string>, h: set<string>,
                  inc: seq<Event>, rows: seq<PolicyRow>, i': set<string>, a': set<string>, h': set<string>)
    requires Uses(events, policy, i, a, h) && Uses(inc, rows, i', a', h')
    ensures Uses(events + inc, policy + rows, i + i', a + a', h + h')
  {}

  /** What has been generated so far: events, labels, policy rows, and the entities they use. */
  datatype Snapshot = Snapshot(events: seq<Event>, labels: seq<Label>, policy: seq<PolicyRow>,
                               ids: set<string>, accounts: set<string>, hosts: set<string>)

  ghost predicate SoundState(p: Params, s: Snapshot) {
    Sound(p, s.events, s.labels, s.policy, s.ids, s.accounts, s.hosts)
  }

  /** `after` is `before` with the piece `inc` on entities of its own. */
  ghost predicate Joins(before: Snapshot, inc: Snapshot, after: Snapshot) {
    && before.ids !! inc.ids && before.accounts !! inc.accounts && before.hosts !! inc.hosts
    && after.events == before.events + inc.events && after.labels == before.labels + inc.labels
    && after.policy == before.policy + inc.policy
    && after.ids == before.ids + inc.ids && after.accounts == before.accounts + inc.accounts && after.hosts == before.hosts + inc.hosts
  }

  /** Only a sound piece on fresh entities was added. */
  ghost predicate Extends(p: Params, before: Snapshot, after: Snapshot) {
    exists inc :: Joins(before, inc, after) && SoundState(p, inc)
  }

  lemma {:induction false} Extended(p: Params, before: Snapshot, inc: Snapshot, after: Snapshot)
    requires Joins(before, inc, after) && SoundState(p, inc)
    ensures Extends(p, before, after)
  {}

  lemma {:induction false} StillSound(p: Params, before: Snapshot, after: Snapshot)
    requires SoundState(p, before) && Extends(p, before, after)
    ensures SoundState(p, after)
  {
    var inc :| Joins(before, inc, after) && SoundState(p, inc);
    SoundUnion(p, before.events, before.labels, before.policy, before.ids, before.accounts, before.hosts,
               inc.events, inc.labels, inc.policy, inc.ids, inc.accounts, inc.hosts);
  }

  lemma {:induction false} NothingYet(p: Params)
    ensures Sound(p, [], [], [], {}, {}, {})
  {
    assert Findings([], PolicyMap([]), p) == {};
    assert Expected([]) == {};
  }

  lemma {:induction false} AppendOwnIds(labels: seq<Label>, ids: set<string>, more: seq<Label>, ids': set<string>)
    requires OwnIds(labels, ids) && OwnIds(more, ids')
    ensures OwnIds(labels + more, ids + ids')
  {}

  lemma {:induction false} StillExact(p: Params, events: seq<Event>, labels: seq<Label>, m: Policy, ids: set<string>,
                                      inc: seq<Event>, more: seq<Label>, m': Policy, ids': set<string>, both: Policy)
    requires IdsOf(events) <= ids && IdsOf(inc) <= ids' && ids !! ids' && Isolated(events, inc)
    requires OwnIds(labels, ids) && OwnIds(more, ids')
    requires SamePolicyFor(events, both, m) && SamePolicyFor(inc, both, m')
    requires Exact(Spoken(Findings(events, m, p)), labels) && Exact(Spoken(Findings(inc, m', p)), more)
    ensures Exact(Spoken(Findings(events + inc, both, p)), labels + more)
  {
    FindingsOfIsolated(events, inc, both, m, m', p);
    SaidAboutOwnEvents(events, m, p);
    SaidAboutOwnEvents(inc, m', p);
    ExactUnion(Spoken(Findings(events, m, p)), labels, ids, Spoken(Findings(inc, m', p)), more, ids');
    SpokenUnion(Findings(events, m, p), Findings(inc, m', p));
  }

  lemma {:induction false} SpokenUnion(x: set<Alert>, y: set<Alert>)
    ensures Spoken(x + y) == Spoken(x) + Spoken(y)
  {}

  /** One label about an incident on which the detector says at most one thing. */
  lemma {:induction false} SingleLabel(l: Label, said: set<Finding>)
    requires l.expected.NoAlert? ==> l.trigger.None? && said == {}
    requires !l.expected.NoAlert? ==> l.trigger.Some? && l.trigger.value in l.eventIds && said == {(l.behaviour, l.trigger.value, l.expected)}
    ensures Exact(said, [l])
  {
    assert Expected([l]) == said;
  }
}
