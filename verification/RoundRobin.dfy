/** The load balancer of the HTTP front: round robin over the ports that serve one tag and name. */
module RoundRobin {
  import opened Basics
  import opened Options

  // ---- One balancer ----

  class RoundRobin {
    var current: nat
    var pool: seq<string>

    constructor ()
      ensures current == 0 && pool == []
    {
      current, pool := 0, [];
    }

    method Update(pool: seq<string>) returns (result: string)
      modifies this
      ensures this.pool == pool
      ensures pool == [] ==> result == "" && current == old(current)
      ensures pool != [] ==> result == pool[Index(old(current), |pool|)] && current == Next(old(current), |pool|)
    {
      this.pool := pool;
      if |pool| == 0 {
        return "";
      }
      if current >= |this.pool| {
        current := current % |this.pool|;
      }
      result := this.pool[current];
      current := current + 1;
    }
  }

  /** The entry chosen from a pool of `n`. */
  function Index(current: nat, n: nat): (i: nat)
    requires n > 0
    ensures i < n
  {
    if current >= n then current % n else current
  }

  function Next(current: nat, n: nat): nat
    requires n > 0
  {
    Index(current, n) + 1
  }

  /** The entries chosen by `k` calls in a row with pools of the same size. */
  function Picks(current: nat, n: nat, k: nat): seq<nat>
    requires n > 0
    decreases k
  {
    if k == 0 then [] else [Index(current, n)] + Picks(Next(current, n), n, k - 1)
  }

  function Count(picks: seq<nat>, i: nat): nat {
    if picks == [] then 0 else (if picks[0] == i then 1 else 0) + Count(picks[1..], i)
  }

  /** The result and the state after a whole run of calls, the pool changing between them as it likes. */
  function Run(current: nat, pools: seq<seq<string>>): (seq<string>, nat)
    decreases |pools|
  {
    if pools == [] then ([], current)
    else if pools[0] == [] then
      var (rs, c) := Run(current, pools[1..]);
      ([""] + rs, c)
    else
      var (rs, c) := Run(Next(current, |pools[0]|), pools[1..]);
      ([pools[0][Index(current, |pools[0]|)]] + rs, c)
  }

  lemma NextSteps(current: nat, n: nat)
    requires n > 0
    ensures Index(Next(current, n), n) == if Index(current, n) + 1 == n then 0 else Index(current, n) + 1
  {
    if Index(current, n) + 1 == n {
      assert n % n == 0;
    }
  }

  /** How far entry `i` is ahead of the cursor. */
  function Wait(current: nat, n: nat, i: nat): (w: nat)
    requires i < n
    ensures w < n
  {
    var at := Index(current, n);
    if i >= at then i - at else i + n - at
  }

  /** Over any `k` calls entry `i` is chosen once per full round, plus once if the last round has reached it. */
  lemma {:induction false} CountExact(current: nat, n: nat, k: nat, i: nat)
    requires i < n
    ensures Count(Picks(current, n, k), i) == Rounds(n, k, Wait(current, n, i))
    decreases k
  {
    if k > 0 {
      var next := Next(current, n);
      NextSteps(current, n);
      CountExact(next, n, k - 1, i);
      var rest := Picks(next, n, k - 1);
      assert ([Index(current, n)] + rest)[1..] == rest;
      RoundsStep(n, k - 1, Wait(next, n, i));
    }
  }

  /** The number of j < k with j % n == w, that is, the rounds of an entry that is first reached after `w` others. */
  function Rounds(n: nat, k: nat, w: nat): nat
    requires w < n
  {
    k / n + if w < k % n then 1 else 0
  }

  lemma RoundsStep(n: nat, k: nat, w: nat)
    requires w < n
    ensures w + 1 < n ==> Rounds(n, k + 1, w + 1) == Rounds(n, k, w)
    ensures w + 1 == n ==> Rounds(n, k + 1, 0) == Rounds(n, k, w) + 1
    ensures Rounds(n, 0, w) == 0
  {
    DivStep(n, k);
  }

  lemma DivStep(n: nat, k: nat)
    requires n > 0
    ensures 0 / n == 0 && 0 % n == 0
    ensures if k % n + 1 < n
            then (k + 1) / n == k / n && (k + 1) % n == k % n + 1
            else (k + 1) / n == k / n + 1 && (k + 1) % n == 0
  {
    var q, r := k / n, k % n;
    assert k == q * n + r;
    if r + 1 < n {
      DivUnique(n, k + 1, q, r + 1);
    } else {
      assert (q + 1) * n == q * n + n;
      DivUnique(n, k + 1, q + 1, 0);
    }
    DivUnique(n, 0, 0, 0);
  }

  lemma DivUnique(n: nat, k: nat, q: nat, r: nat)
    requires r < n && k == q * n + r
    ensures k / n == q && k % n == r
  {
    var q', r' := k / n, k % n;
    assert k == q' * n + r';
    if q' < q {
      MulGap(q', q, n);
    } else if q' > q {
      MulGap(q, q', n);
    }
  }

  lemma {:induction false} MulGap(a: nat, b: nat, n: nat)
    requires a < b
    ensures b * n >= a * n + n
    decreases b
  {
    if b == a + 1 {
      assert (a + 1) * n == a * n + n;
    } else {
      MulGap(a, b - 1, n);
      assert b * n == (b - 1) * n + n;
    }
  }

  /** From any state, `n` calls in a row with an `n`-entry pool choose every entry exactly once. */
  lemma EachOncePerRound(current: nat, n: nat, i: nat)
    requires i < n
    ensures Count(Picks(current, n, n), i) == 1
  {
    CountExact(current, n, n, i);
    DivUnique(n, n, 1, 0);
  }

  /** From any state and over any number of calls, no entry is chosen twice more often than another. */
  lemma CountsDifferByOne(current: nat, n: nat, k: nat, i: nat, j: nat)
    requires i < n && j < n
    ensures Count(Picks(current, n, k), i) <= Count(Picks(current, n, k), j) + 1
  {
    CountExact(current, n, k, i);
    CountExact(current, n, k, j);
  }

  /** While the pool is the same, the results are the pool's entries at the picked places. */
  lemma {:induction false} SamePoolRun(current: nat, pool: seq<string>, k: nat)
    requires pool != []
    ensures var picks := Picks(current, |pool|, k);
            && |picks| == k
            && (forall j | 0 <= j < k :: picks[j] < |pool|)
            && |Run(current, seq(k, _ => pool)).0| == k
            && (forall j | 0 <= j < k :: Run(current, seq(k, _ => pool)).0[j] == pool[picks[j]])
    decreases k
  {
    var pools := seq(k, _ => pool);
    if k > 0 {
      var next := Next(current, |pool|);
      SamePoolRun(next, pool, k - 1);
      assert pools[1..] == seq(k - 1, _ => pool);
      var picks := Picks(current, |pool|, k);
      assert picks[1..] == Picks(next, |pool|, k - 1);
    }
  }

  /** Whatever pools a run is given, each answer is an entry of its own pool, or empty if that pool is. */
  lemma {:induction false} AnswersComeFromPool(current: nat, pools: seq<seq<string>>)
    ensures |Run(current, pools).0| == |pools|
    ensures forall j | 0 <= j < |pools| ::
              if pools[j] == [] then Run(current, pools).0[j] == "" else Run(current, pools).0[j] in pools[j]
    decreases |pools|
  {
    if pools != [] {
      AnswersComeFromPool(if pools[0] == [] then current else Next(current, |pools[0]|), pools[1..]);
    }
  }

  // ---- Choosing a port for a tag and a name ----

  /** What the front reads of a manager. */
  datatype Service = Service(tag: string, proxies: map<string, string>)

  /** util.MapFiltered. */
  method MapFiltered<T, R>(elements: seq<T>, fn: T -> Option<R>) returns (result: seq<R>)
    ensures result == Kept(elements, fn)
  {
    result := [];
    for i := 0 to |elements|
      invariant result == Kept(elements[..i], fn)
    {
      assert elements[..i + 1][..i] == elements[..i];
      var r := fn(elements[i]);
      if r.Some? {
        result := result + [r.value];
      }
    }
    assert elements[..|elements|] == elements;
  }

  ghost function Kept<T, R>(elements: seq<T>, fn: T -> Option<R>): seq<R> {
    if elements == [] then []
    else
      var last := fn(elements[|elements| - 1]);
      Kept(elements[..|elements| - 1], fn) + if last.Some? then [last.value] else []
  }

  lemma {:induction false} KeptElements<T, R>(elements: seq<T>, fn: T -> Option<R>, r: R)
    ensures r in Kept(elements, fn) <==> exists e :: e in elements && fn(e) == Some(r)
  {
    if elements != [] {
      var front, last := elements[..|elements| - 1], elements[|elements| - 1];
      assert elements == front + [last];
      KeptElements(front, fn, r);
    }
  }

  /** The listing of one map iteration: every key once, in an order that the language leaves open. */
  ghost predicate Lists<V>(order: seq<string>, m: map<string, V>) {
    && Distinct(order)
    && (forall k :: k in order <==> k in m)
  }

  function PortOf(managers: map<string, Service>, tag: string, name: string): string -> Option<string> {
    id => if id in managers && managers[id].tag == tag && name in managers[id].proxies
      then Some(managers[id].proxies[name]) else None
  }

  /** The ports of all managers with this tag that have a proxy of this name. */
  ghost function Available(managers: map<string, Service>, order: seq<string>, tag: string, name: string): seq<string> {
    Kept(order, PortOf(managers, tag, name))
  }

  predicate ById(tag: string) { tag != "" && tag[|tag| - 1] == '@' }

  /** The port for a tag and name: by client id if the tag ends in '@', otherwise the first available. */
  ghost function Selected(managers: map<string, Service>, order: seq<string>, tag: string, name: string): string {
    if ById(tag) then
      var id := tag[..|tag| - 1];
      if id in managers && name in managers[id].proxies then managers[id].proxies[name] else ""
    else
      var avail := Available(managers, order, tag, name);
      if avail == [] then "" else avail[0]
  }

  /** The HTTP front; `tagBalancer` is meant to keep one balancer per tag. */
  class Mux {
    var tagBalancer: map<string, RoundRobin>

    constructor ()
      ensures tagBalancer == map[]
    {
      tagBalancer := map[];
    }

    /** A balancer that is not in the table is made new, and not put there. */
    method GetRobin(tag: string) returns (rb: RoundRobin)
      ensures tag in tagBalancer ==> rb == tagBalancer[tag]
      ensures tag !in tagBalancer ==> fresh(rb) && rb.current == 0
    {
      if tag in tagBalancer {
        rb := tagBalancer[tag];
      } else {
        rb := new RoundRobin();
      }
    }

    /** Nothing ever enters the table, so every call starts a new balancer and takes its first choice. */
    method SelectPort(managers: map<string, Service>, order: seq<string>, tag: string, name: string)
      returns (selected: string)
      requires Lists(order, managers)
      requires tagBalancer == map[]
      ensures tagBalancer == map[]
      ensures selected == Selected(managers, order, tag, name)
    {
      selected := "";
      if ById(tag) {
        var id := tag[..|tag| - 1];
        if id in managers {
          if name in managers[id].proxies {
            selected := managers[id].proxies[name];
          }
        }
      } else {
        var avail := MapFiltered(order, PortOf(managers, tag, name));
        if |avail| == 0 {
          return "";
        }
        var rb := GetRobin(tag);
        selected := rb.Update(avail);
      }
    }
  }

  /** A port is selected by tag only if some manager with that tag serves the name there, and none only if none does. */
  lemma SelectedServes(managers: map<string, Service>, order: seq<string>, tag: string, name: string)
    requires Lists(order, managers) && !ById(tag)
    requires forall id, n | id in managers && n in managers[id].proxies :: managers[id].proxies[n] != ""
    ensures var selected := Selected(managers, order, tag, name);
            if selected == "" then
              forall id | id in managers :: managers[id].tag != tag || name !in managers[id].proxies
            else
              exists id :: id in managers && managers[id].tag == tag && name in managers[id].proxies
                           && managers[id].proxies[name] == selected
  {
    var fn := PortOf(managers, tag, name);
    var avail := Available(managers, order, tag, name);
    if avail != [] {
      KeptElements(order, fn, avail[0]);
    }
    forall id | id in managers && managers[id].tag == tag && name in managers[id].proxies
      ensures avail != []
    {
      KeptElements(order, fn, managers[id].proxies[name]);
      assert id in order && fn(id) == Some(managers[id].proxies[name]);
    }
  }

  // ---- Many requests ----

  /** Each request lists the map anew; these are the ports chosen for requests with these listings. */
  ghost function Served(
    managers: map<string, Service>, orders: seq<seq<string>>, tag: string, name: string): (ports: seq<string>)
    ensures |ports| == |orders|
  {
    seq(|orders|, j requires 0 <= j < |orders| => Selected(managers, orders[j], tag, name))
  }

  predicate Serves(managers: map<string, Service>, tag: string, name: string, id: string) {
    id in managers && managers[id].tag == tag && name in managers[id].proxies
  }

  /** This manager serves the tag and name, and is listed before all others that do. */
  ghost predicate IsFirst(managers: map<string, Service>, order: seq<string>, tag: string, name: string, id: string) {
    Serves(managers, tag, name, id) &&
    exists k :: 0 <= k < |order| && order[k] == id && forall i :: 0 <= i < k ==> !Serves(managers, tag, name, order[i])
  }

  lemma {:induction false} KeptFirst<T, R>(elements: seq<T>, fn: T -> Option<R>, k: nat)
    requires k < |elements| && fn(elements[k]).Some? && forall i :: 0 <= i < k ==> fn(elements[i]).None?
    ensures Kept(elements, fn) != [] && Kept(elements, fn)[0] == fn(elements[k]).value
    decreases |elements|
  {
    var front := elements[..|elements| - 1];
    if k < |front| {
      KeptFirst(front, fn, k);
    } else {
      KeptNone(front, fn);
    }
  }

  lemma {:induction false} KeptNone<T, R>(elements: seq<T>, fn: T -> Option<R>)
    requires forall i :: 0 <= i < |elements| ==> fn(elements[i]).None?
    ensures Kept(elements, fn) == []
  {
    if elements != [] { KeptNone(elements[..|elements| - 1], fn); }
  }

  lemma SelectedIsFirst(managers: map<string, Service>, order: seq<string>, tag: string, name: string, id: string)
    requires !ById(tag) && IsFirst(managers, order, tag, name, id)
    ensures Selected(managers, order, tag, name) == managers[id].proxies[name]
  {
    var k :| 0 <= k < |order| && order[k] == id && forall i :: 0 <= i < k ==> !Serves(managers, tag, name, order[i]);
    KeptFirst(order, PortOf(managers, tag, name), k);
  }

  lemma FirstExists(
    managers: map<string, Service>, order: seq<string>, tag: string, name: string, id: string)
    returns (first: string)
    requires id in order && Serves(managers, tag, name, id)
    ensures IsFirst(managers, order, tag, name, first)
  {
    var k := 0;
    while !Serves(managers, tag, name, order[k])
      invariant 0 <= k < |order| && forall i :: 0 <= i < k ==> !Serves(managers, tag, name, order[i])
      decreases |order| - k
    {
      k := k + 1;
    }
    first := order[k];
  }

  /**
   If the tag and name are served at all, the ports chosen over any requests are exactly those of the
   managers that were listed first, for their tag and name, in some request.
   */
  lemma FirstsAreServed(
    managers: map<string, Service>, orders: seq<seq<string>>, tag: string, name: string, id: string, port: string)
    requires !ById(tag) && Serves(managers, tag, name, id)
    requires forall j :: 0 <= j < |orders| ==> Lists(orders[j], managers)
    ensures port in Served(managers, orders, tag, name) <==>
            exists j, first ::
              && 0 <= j < |orders|
              && IsFirst(managers, orders[j], tag, name, first)
              && managers[first].proxies[name] == port
  {
    var ports := Served(managers, orders, tag, name);
    if port in ports {
      var j :| 0 <= j < |orders| && ports[j] == port;
      var first := FirstExists(managers, orders[j], tag, name, id);
      SelectedIsFirst(managers, orders[j], tag, name, first);
    }
    forall j, first
      | 0 <= j < |orders| && IsFirst(managers, orders[j], tag, name, first) && managers[first].proxies[name] == port
      ensures port in ports
    {
      SelectedIsFirst(managers, orders[j], tag, name, first);
      assert ports[j] == port;
    }
  }

  lemma {:induction false} SomeListing(ids: set<string>) returns (order: seq<string>)
    ensures Distinct(order) && forall id :: id in order <==> id in ids
    decreases |ids|
  {
    order := [];
    if ids != {} {
      var id :| id in ids;
      order := SomeListing(ids - {id});
      order := order + [id];
    }
  }

  /** Every manager that serves the tag and name is first in some listing, so its port may be chosen. */
  lemma AnyCanBeFirst(managers: map<string, Service>, tag: string, name: string, id: string)
    returns (order: seq<string>)
    requires !ById(tag) && Serves(managers, tag, name, id)
    ensures Lists(order, managers) && IsFirst(managers, order, tag, name, id)
    ensures Selected(managers, order, tag, name) == managers[id].proxies[name]
  {
    var others := SomeListing(managers.Keys - {id});
    order := [id] + others;
    assert order[0] == id;
    SelectedIsFirst(managers, order, tag, name, id);
  }

  /**
   The documented rotation over equal tags is not what the front does: while requests find the map
   listed in one order, each goes to the same port. One shared balancer called as often, at least once
   per available port, would have given every one of them.
   */
  lemma FrontDoesNotRotate(
    managers: map<string, Service>, order: seq<string>, tag: string, name: string, k: nat, i: nat)
    requires !ById(tag) && i < |Available(managers, order, tag, name)| <= k
    ensures var avail := Available(managers, order, tag, name);
            && Served(managers, seq(k, _ => order), tag, name) == seq(k, _ => avail[0])
            && avail[i] in Run(0, seq(k, _ => avail)).0
  {
    SharedGivesEach(Available(managers, order, tag, name), k, i);
  }

  /** A balancer called at least once per entry of its pool gives every entry. */
  lemma SharedGivesEach(pool: seq<string>, k: nat, i: nat)
    requires i < |pool| <= k
    ensures pool[i] in Run(0, seq(k, _ => pool)).0
  {
    var picks := Picks(0, |pool|, k);
    SamePoolRun(0, pool, k);
    AtLeastOneRound(|pool|, k, i);
    var at := CountedIsIn(picks, i);
    assert Run(0, seq(k, _ => pool)).0[at] == pool[i];
  }

  lemma AtLeastOneRound(n: nat, k: nat, i: nat)
    requires i < n <= k
    ensures Count(Picks(0, n, k), i) > 0
  {
    CountExact(0, n, k, i);
    DivUnique(n, n, 1, 0);
    assert k / n >= 1;
  }

  lemma {:induction false} CountedIsIn(picks: seq<nat>, i: nat) returns (at: nat)
    requires Count(picks, i) > 0
    ensures at < |picks| && picks[at] == i
  {
    if picks[0] == i {
      at := 0;
    } else {
      at := CountedIsIn(picks[1..], i);
      at := at + 1;
    }
  }

  /** A client id followed by '@' selects the port of that client's own proxy, however the map is listed. */
  lemma SelectedById(managers: map<string, Service>, order: seq<string>, id: string, name: string)
    ensures Selected(managers, order, id + "@", name)
         == if id in managers && name in managers[id].proxies then managers[id].proxies[name] else ""
  {
    assert (id + "@")[..|id|] == id;
  }
}
