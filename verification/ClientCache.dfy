/**
 The RPC client cache (operator/internal/controller/transaction_reconcile.go, `getPaladinRPC` and
 `removeNode`): a double-checked map under a readers/writer lock, stepped by any number of
 goroutines in any interleaving.
 */
module ClientCache {
  import opened Collections

  type Key = string

  /** A client is built for one cache key; `serial` tells clients apart. */
  datatype Client = Client(key: Key, serial: nat)

  /** fmt.Sprintf("%s/%s", nodeName, timeout) */
  function CacheKey(node: string, timeout: string): (k: Key) { node + "/" + timeout }

  /** strings.HasPrefix */
  predicate HasPrefix(s: string, prefix: string) { |prefix| <= |s| && s[..|prefix|] == prefix }

  predicate NoSlash(s: string) { '/' !in s }

  // ---- which keys belong to a node ----

  /** Without "/" in node names the prefix test finds exactly the keys of that node. */
  lemma PrefixIsNode(node: string, other: string, timeout: string)
    requires NoSlash(node) && NoSlash(other)
    ensures HasPrefix(CacheKey(other, timeout), node + "/") <==> other == node
  {
    var k := CacheKey(other, timeout);
    var p := node + "/";
    assert k[|other|] == '/' && forall i :: 0 <= i < |other| ==> k[i] == other[i] && other[i] in other;
    if HasPrefix(k, p) {
      assert k[|node|] == k[..|p|][|node|] == '/';
      assert forall i :: 0 <= i < |node| ==> k[i] == k[..|p|][i] == node[i] && node[i] in node;
      assert |node| == |other|;
      assert other == node;
    }
    assert other == node ==> k[..|p|] == p;
  }

  /** Two (node, timeout) pairs share a cache entry only if they are the same pair. */
  lemma KeyIdentifies(node: string, timeout: string, node': string, timeout': string)
    requires NoSlash(node) && NoSlash(node') && CacheKey(node, timeout) == CacheKey(node', timeout')
    ensures node == node' && timeout == timeout'
  {
    var k := CacheKey(node, timeout);
    assert k[..|node| + 1] == node + "/";
    PrefixIsNode(node, node', timeout');
    assert k[|node| + 1..] == timeout && k[|node'| + 1..] == timeout';
  }

  /** generatePaladinName */
  function PaladinName(node: string): (n: string) { "paladin-" + node }

  /**
   The Paladin reconciler removes a deleted node under its resource name, while the keys hold the
   plain node name: it drops none of that node's clients, and drops those of a node that happens
   to be called "paladin-" followed by the name.
   */
  lemma DeletedNodeKeepsClients(node: string, other: string, timeout: string)
    requires NoSlash(node) && NoSlash(other)
    ensures !HasPrefix(CacheKey(node, timeout), PaladinName(node) + "/")
    ensures HasPrefix(CacheKey(other, timeout), PaladinName(node) + "/") <==> other == PaladinName(node)
  {
    assert NoSlash("paladin-");
    assert NoSlash(PaladinName(node));
    assert |PaladinName(node)| != |node|;
    PrefixIsNode(PaladinName(node), node, timeout);
    PrefixIsNode(PaladinName(node), other, timeout);
  }

  function Doomed(clients: map<Key, Client>, node: string): (s: set<Key>) {
    set k | k in clients && HasPrefix(k, node + "/")
  }

  class RpcClientManager {
    var clients: map<Key, Client>

    constructor ()
      ensures clients == map[]
    {
      clients := map[];
    }

    method RemoveNode(node: string)
      modifies this
      ensures clients == old(clients) - Doomed(old(clients), node)
    {
      var toRemove: seq<Key> := [];
      var rest := clients.Keys;
      while rest != {}
        invariant rest <= clients.Keys && clients == old(clients)
        invariant forall k :: k in toRemove <==> k in Doomed(clients, node) && k !in rest
      {
        var k :| k in rest;
        if HasPrefix(k, node + "/") {
          toRemove := toRemove + [k];
        }
        rest := rest - {k};
      }
      for i := 0 to |toRemove|
        invariant clients == old(clients) - (set k | k in toRemove[..i])
      {
        assert toRemove[..i + 1] == toRemove[..i] + [toRemove[i]];
        clients := clients - {toRemove[i]};
      }
      assert toRemove[..|toRemove|] == toRemove;
    }
  }

  // ---- interleavings ----

  /** Where a goroutine stands; `Reading` holds the read lock, `Locked`, `Building` and `Removing` the write lock. */
  datatype Thread =
    | Arrived(node: string, timeout: string)
    | Reading(node: string, timeout: string)
    | Missed(node: string, timeout: string)
    | Locked(node: string, timeout: string)
    | Building(node: string, timeout: string)
    | Returned(node: string, timeout: string, client: Client)
    | Failed
    | WantsRemoval(node: string)
    | Removing(node: string)
    | Removed
  {
    predicate Reader() { Reading? }
    predicate Writer() { Locked? || Building? || Removing? }
  }

  datatype Entry = Built(key: Key, serial: nat) | Dropped(key: Key)

  datatype Cache = Cache(clients: map<Key, Client>, threads: map<nat, Thread>, log: seq<Entry>)

  const START := Cache(map[], map[], [])

  datatype Step =
    | Call(t: nat, node: string, timeout: string)
    | Remove(t: nat, node: string)
    | RLock(t: nat)
    | Look(t: nat)
    | Lock(t: nat)
    | LookAgain(t: nat)
    | Store(t: nat, ok: bool)
    | Sweep(t: nat, order: seq<Key>)

  predicate NoWriter(c: Cache) { forall t <- c.threads :: !c.threads[t].Writer() }
  predicate NoReader(c: Cache) { forall t <- c.threads :: !c.threads[t].Reader() }

  predicate Enabled(c: Cache, s: Step) {
    match s
    case Call(t, _, _) => t !in c.threads
    case Remove(t, _) => t !in c.threads
    case RLock(t) => t in c.threads && c.threads[t].Arrived? && NoWriter(c)
    case Look(t) => t in c.threads && c.threads[t].Reading?
    case Lock(t) => t in c.threads && (c.threads[t].Missed? || c.threads[t].WantsRemoval?) && NoWriter(c) && NoReader(c)
    case LookAgain(t) => t in c.threads && c.threads[t].Locked?
    case Store(t, _) => t in c.threads && c.threads[t].Building?
    case Sweep(t, order) =>
      && t in c.threads && c.threads[t].Removing? && Distinct(order)
      && (set k | k in order) == Doomed(c.clients, c.threads[t].node)
  }

  function Drops(order: seq<Key>): (e: seq<Entry>)
    ensures |e| == |order| && forall i :: 0 <= i < |order| ==> e[i] == Dropped(order[i])
  {
    seq(|order|, i requires 0 <= i < |order| => Dropped(order[i]))
  }

  function Next(c: Cache, s: Step): (d: Cache)
    requires Enabled(c, s)
  {
    match s
    case Call(t, node, timeout) => c.(threads := c.threads[t := Arrived(node, timeout)])
    case Remove(t, node) => c.(threads := c.threads[t := WantsRemoval(node)])
    case RLock(t) => c.(threads := c.threads[t := Reading(c.threads[t].node, c.threads[t].timeout)])
    case Look(t) =>
      var th := c.threads[t];
      var k := CacheKey(th.node, th.timeout);
      c.(threads := c.threads[t := if k in c.clients then Returned(th.node, th.timeout, c.clients[k])
          else Missed(th.node, th.timeout)])
    case Lock(t) =>
      var th := c.threads[t];
      c.(threads := c.threads[t := if th.Missed? then Locked(th.node, th.timeout) else Removing(th.node)])
    case LookAgain(t) =>
      var th := c.threads[t];
      var k := CacheKey(th.node, th.timeout);
      c.(threads := c.threads[t := if k in c.clients then Returned(th.node, th.timeout, c.clients[k])
          else Building(th.node, th.timeout)])
    case Store(t, ok) =>
      var th := c.threads[t];
      var k := CacheKey(th.node, th.timeout);
      var cl := Client(k, |c.log|);
      if ok then
        Cache(c.clients[k := cl], c.threads[t := Returned(th.node, th.timeout, cl)], c.log + [Built(k, |c.log|)])
      else c.(threads := c.threads[t := Failed])
    case Sweep(t, order) =>
      Cache(c.clients - Doomed(c.clients, c.threads[t].node), c.threads[t := Removed], c.log + Drops(order))
  }

  ghost predicate ValidFrom(c: Cache, run: seq<Step>)
    decreases |run|
  {
    run == [] || (Enabled(c, run[0]) && ValidFrom(Next(c, run[0]), run[1..]))
  }

  ghost function After(c: Cache, run: seq<Step>): (d: Cache)
    requires ValidFrom(c, run)
    decreases |run|
  {
    if run == [] then c else After(Next(c, run[0]), run[1..])
  }

  // ---- at most one client per key between removals ----

  /** The last thing the log says about a key is that it was built. */
  predicate Present(log: seq<Entry>, k: Key) {
    log != [] &&
    var e := log[|log| - 1];
    if e.key == k then e.Built? else Present(log[..|log| - 1], k)
  }

  ghost predicate OneBuildPerAbsence(log: seq<Entry>) {
    forall i, j :: 0 <= i < j < |log| && log[i].Built? && log[j].Built? && log[i].key == log[j].key ==>
      exists k :: i < k < j && log[k] == Dropped(log[i].key)
  }

  lemma {:induction false} AbsentWasDropped(log: seq<Entry>, key: Key, i: nat)
    requires !Present(log, key) && i < |log| && log[i].Built? && log[i].key == key
    ensures exists k :: i < k < |log| && log[k] == Dropped(key)
  {
    var n := |log| - 1;
    if log[n].key == key {
      assert log[n] == Dropped(key);
    } else {
      AbsentWasDropped(log[..n], key, i);
      var k :| i < k < n && log[..n][k] == Dropped(key);
      assert log[k] == Dropped(key);
    }
  }

  lemma BuildWhenAbsent(log: seq<Entry>, key: Key, serial: nat)
    requires OneBuildPerAbsence(log) && !Present(log, key)
    ensures OneBuildPerAbsence(log + [Built(key, serial)])
  {
    var after := log + [Built(key, serial)];
    forall i, j | 0 <= i < j < |after| && after[i].Built? && after[j].Built? && after[i].key == after[j].key
      ensures exists k :: i < k < j && after[k] == Dropped(after[i].key)
    {
      if j == |log| {
        AbsentWasDropped(log, key, i);
        var k :| i < k < |log| && log[k] == Dropped(key);
        assert after[k] == Dropped(key);
      } else {
        var k :| i < k < j && log[k] == Dropped(log[i].key);
        assert after[k] == Dropped(after[i].key);
      }
    }
  }

  lemma DropsKeep(log: seq<Entry>, order: seq<Key>)
    requires OneBuildPerAbsence(log)
    ensures OneBuildPerAbsence(log + Drops(order))
  {
    var after := log + Drops(order);
    forall i, j | 0 <= i < j < |after| && after[i].Built? && after[j].Built? && after[i].key == after[j].key
      ensures exists k :: i < k < j && after[k] == Dropped(after[i].key)
    {
      var k :| i < k < j && log[k] == Dropped(log[i].key);
      assert after[k] == Dropped(after[i].key);
    }
  }

  lemma {:induction false} PresentAfterDrops(log: seq<Entry>, order: seq<Key>, key: Key)
    ensures Present(log + Drops(order), key) <==> Present(log, key) && key !in order
  {
    if order == [] {
      assert log + Drops(order) == log;
    } else {
      var n := |order| - 1;
      PresentAfterDrops(log, order[..n], key);
      assert log + Drops(order) == (log + Drops(order[..n])) + [Dropped(order[n])];
      assert (log + Drops(order))[..|log| + n] == log + Drops(order[..n]);
    }
  }

  // ---- the invariant ----

  /** Nothing built or dropped for that key since entry `serial`. */
  ghost predicate LatestOf(log: seq<Entry>, k: Key, serial: nat) {
    serial < |log| && log[serial] == Built(k, serial) && forall i :: serial < i < |log| ==> log[i].key != k
  }

  predicate Exclusive(c: Cache) {
    && (forall t, u | t in c.threads && u in c.threads && c.threads[t].Writer() && c.threads[u].Writer() :: t == u)
    && (forall t, u | t in c.threads && u in c.threads && c.threads[t].Writer() :: !c.threads[u].Reader())
  }

  predicate ThreadOk(c: Cache, th: Thread) {
    match th
    case Building(node, timeout) => CacheKey(node, timeout) !in c.clients
    case Returned(node, timeout, cl) =>
      cl.key == CacheKey(node, timeout) && cl.serial < |c.log| && c.log[cl.serial] == Built(cl.key, cl.serial)
    case _ => true
  }

  ghost predicate Inv(c: Cache) {
    && Exclusive(c)
    && (forall t <- c.threads :: ThreadOk(c, c.threads[t]))
    && (forall k <- c.clients :: ClientOk(c, k))
    && (forall k :: k in c.clients <==> Present(c.log, k))
    && OneBuildPerAbsence(c.log)
  }

  ghost predicate ClientOk(c: Cache, k: Key)
    requires k in c.clients
  {
    c.clients[k].key == k && LatestOf(c.log, k, c.clients[k].serial)
  }

  lemma StoreExcludes(c: Cache, s: Step)
    requires Exclusive(c) && Enabled(c, s) && s.Store?
    ensures Exclusive(Next(c, s))
    ensures forall t <- c.threads :: t != s.t ==> !c.threads[t].Building?
  {
  }

  /** The cached clients and the log after a build. */
  lemma BuildLogged(c: Cache, d: Cache, k: Key)
    requires Inv(c) && k !in c.clients && d.clients == c.clients[k := Client(k, |c.log|)] &&
      d.log == c.log + [Built(k, |c.log|)]
    ensures OneBuildPerAbsence(d.log) && (forall x :: x in d.clients <==> Present(d.log, x)) &&
      forall x <- d.clients :: ClientOk(d, x)
  {
    hide Exclusive, ThreadOk, OneBuildPerAbsence;
    BuildWhenAbsent(c.log, k, |c.log|);
    assert d.log[..|c.log|] == c.log;
    assert forall x <- c.clients :: ClientOk(c, x);
  }

  lemma StoreKeeps(c: Cache, s: Step)
    requires Inv(c) && Enabled(c, s) && s.Store?
    ensures Inv(Next(c, s))
  {
    hide Exclusive, OneBuildPerAbsence, Present, LatestOf;
    StoreExcludes(c, s);
    var d := Next(c, s);
    var th := c.threads[s.t];
    assert ThreadOk(c, th);
    forall t | t in d.threads ensures ThreadOk(d, d.threads[t]) {
      assert t != s.t ==> ThreadOk(c, c.threads[t]);
    }
    if s.ok { BuildLogged(c, d, CacheKey(th.node, th.timeout)); }
  }

  lemma SweepKeeps(c: Cache, s: Step)
    requires Inv(c) && Enabled(c, s) && s.Sweep?
    ensures Inv(Next(c, s))
  {
    var d := Next(c, s);
    DropsKeep(c.log, s.order);
    forall k ensures k in d.clients <==> Present(d.log, k) {
      PresentAfterDrops(c.log, s.order, k);
      assert k in s.order <==> k in (set x | x in s.order);
    }
    forall t | t in d.threads ensures ThreadOk(d, d.threads[t]) {
      assert t != s.t ==> ThreadOk(c, c.threads[t]);
    }
  }

  lemma NextKeeps(c: Cache, s: Step)
    requires Inv(c) && Enabled(c, s)
    ensures Inv(Next(c, s))
  {
    if s.Store? {
      StoreKeeps(c, s);
    } else if s.Sweep? {
      SweepKeeps(c, s);
    } else {
      LockStepKeeps(c, s);
    }
  }

  lemma LockStepExcludes(c: Cache, s: Step)
    requires Exclusive(c) && Enabled(c, s) && !s.Store? && !s.Sweep?
    ensures Exclusive(Next(c, s))
  {
  }

  lemma LockStepKeeps(c: Cache, s: Step)
    requires Inv(c) && Enabled(c, s) && !s.Store? && !s.Sweep?
    ensures Inv(Next(c, s))
  {
    hide Present, OneBuildPerAbsence, Exclusive;
    LockStepExcludes(c, s);
    var d := Next(c, s);
    forall t | t in d.threads ensures ThreadOk(d, d.threads[t]) {
      if t in c.threads { assert ThreadOk(c, c.threads[t]); }
    }
  }

  lemma {:induction false} RunKeeps(c: Cache, run: seq<Step>)
    requires Inv(c) && ValidFrom(c, run)
    ensures Inv(After(c, run))
    decreases |run|
  {
    hide Inv, Enabled, Next;
    if run != [] {
      NextKeeps(c, run[0]);
      RunKeeps(Next(c, run[0]), run[1..]);
    }
  }

  // ---- guarantees ----

  lemma StartOk()
    ensures Inv(START)
  {
  }

  /** In every interleaving, two clients are built for one key only with a removal of it in between. */
  lemma BuiltOncePerAbsence(run: seq<Step>)
    requires ValidFrom(START, run)
    ensures OneBuildPerAbsence(After(START, run).log)
  {
    StartOk();
    RunKeeps(START, run);
  }

  /** Every call returns a client built for its own node and timeout, and no other pair's. */
  lemma ReturnsOwnClient(run: seq<Step>, t: nat, u: nat)
    requires ValidFrom(START, run)
    requires t in After(START, run).threads && After(START, run).threads[t].Returned?
    requires u in After(START, run).threads && After(START, run).threads[u].Returned?
    requires NoSlash(After(START, run).threads[t].node) && NoSlash(After(START, run).threads[u].node)
    ensures var a, b := After(START, run).threads[t], After(START, run).threads[u];
            && Built(CacheKey(a.node, a.timeout), a.client.serial) in After(START, run).log
            && (a.client == b.client ==> a.node == b.node && a.timeout == b.timeout)
  {
    hide Enabled, Next;
    StartOk();
    RunKeeps(START, run);
    var c := After(START, run);
    var a, b := c.threads[t], c.threads[u];
    assert ThreadOk(c, a) && ThreadOk(c, b);
    if a.client == b.client { KeyIdentifies(a.node, a.timeout, b.node, b.timeout); }
  }

  /** A call never returns a removed client: when it returns, its client is the last thing built for
      its key, and the key has not been removed since. */
  lemma ReturnsCurrent(run: seq<Step>, s: Step)
    requires ValidFrom(START, run) && Enabled(After(START, run), s)
    requires s.Look? || s.LookAgain? || s.Store?
    ensures var d := Next(After(START, run), s);
            d.threads[s.t].Returned? ==>
              LatestOf(d.log, CacheKey(d.threads[s.t].node, d.threads[s.t].timeout), d.threads[s.t].client.serial)
  {
    hide Enabled, ValidFrom, After;
    StartOk();
    RunKeeps(START, run);
    var c := After(START, run);
    NextKeeps(c, s);
    var d := Next(c, s);
    if d.threads[s.t].Returned? {
      var k := CacheKey(d.threads[s.t].node, d.threads[s.t].timeout);
      assert k in d.clients && d.clients[k] == d.threads[s.t].client;
      assert ClientOk(d, k);
    }
  }
}
