/**
  The crash watcher: it polls the state of every guest, keeps the last state of
  each family it could read, and diagnoses a guest that was running and no longer
  is, unless the stop was announced. A family that could not be read is left alone.
 */
module CrashWatcher {
  import opened Wrappers
  import opened Sequences

  datatype Kind = VmKind | LxcKind

  /** The source keys its maps by `type:name`; `KeyRoundTrip` shows that this is the pair. */
  datatype Guest = Guest(kind: Kind, name: string)

  type States = map<Guest, string>

  /** One family's listing, as the runner returns it: names with an optional state. */
  type Listing = seq<(string, Option<string>)>

  function Label(k: Kind): string {
    if k.VmKind? then "vm" else "lxc"
  }

  function Key(g: Guest): string {
    Label(g.kind) + ":" + g.name
  }

  /** `[type, ...rest] = key.split(":")`, `name = rest.join(":")`: the two sides of the first colon. */
  function BeforeColon(s: string): string {
    if s == "" || s[0] == ':' then "" else [s[0]] + BeforeColon(s[1..])
  }

  function AfterColon(s: string): string {
    if s == "" then "" else if s[0] == ':' then s[1..] else AfterColon(s[1..])
  }

  lemma {:induction false} ColonSplits(a: string, b: string)
    requires ':' !in a
    ensures BeforeColon(a + ":" + b) == a && AfterColon(a + ":" + b) == b
  {
    var s := a + ":" + b;
    if a == "" {
      assert s[1..] == b;
    } else {
      assert s[1..] == a[1..] + ":" + b;
      ColonSplits(a[1..], b);
      FirstElement(a);
    }
  }

  /** A key gives back its family and name, whatever colons the name holds; the prefix test selects the family. */
  lemma KeyRoundTrip(g: Guest, k: Kind)
    ensures BeforeColon(Key(g)) == Label(g.kind) && AfterColon(Key(g)) == g.name
    ensures Label(k) + ":" <= Key(g) <==> g.kind == k
  {
    ColonSplits(Label(g.kind), g.name);
    var p := Label(k) + ":";
    if p <= Key(g) {
      assert Key(g)[0] == p[0];
    }
  }

  predicate IsLive(state: string) {
    state in {"running", "paused", "suspended", "frozen"}
  }

  /** The map a listing builds; a later entry of the same name wins, a missing state reads "unknown". */
  function StatesOf(k: Kind, listing: Listing): (s: States)
    ensures forall g :: g in s ==> g.kind == k
  {
    if listing == [] then map[]
    else
      var (name, state) := listing[|listing| - 1];
      StatesOf(k, listing[..|listing| - 1])[Guest(k, name) := if state.Some? then state.value else "unknown"]
  }

  // ---- What the watcher does, event by event --------------------------------------------

  /** `Begin` is the start of a tick, `Poll` the moment its listings are there (None: the call failed). */
  datatype Event = Mark(guest: Guest, now: int, ttl: int) | Begin(now: int)
    | Poll(now: int, vm: Option<Listing>, lxc: Option<Listing>)

  /** `last[k]` is the reference state of family `k`, absent until it was read once. */
  datatype View = View(expected: map<Guest, int>, last: map<Kind, States>)

  const INITIAL := View(map[], map[])

  function ListingOf(e: Event, k: Kind): Option<Listing> {
    if !e.Poll? then None else if k.VmKind? then e.vm else e.lxc
  }

  /** Guests of a family that the reference state has running and the new states have not. */
  function Stopped(v: View, k: Kind, states: States): set<Guest> {
    if k !in v.last then {}
    else set g | g in states && g in v.last[k] && v.last[k][g] == "running" && !IsLive(states[g])
  }

  predicate Expected(v: View, g: Guest, now: int) {
    g in v.expected && v.expected[g] > now
  }

  function Read(v: View, k: Kind, listing: Option<Listing>): View {
    if listing.None? then v
    else
      var states := StatesOf(k, listing.value);
      View(v.expected - Stopped(v, k, states), v.last[k := states])
  }

  function Step(v: View, e: Event): View {
    match e
    case Mark(g, now, ttl) => v.(expected := v.expected[g := now + ttl])
    case Begin(now) => v.(expected := map g | g in v.expected && v.expected[g] > now :: v.expected[g])
    case Poll(now, vm, lxc) => Read(Read(v, VmKind, vm), LxcKind, lxc)
  }

  /** The guests of one family diagnosed at an event. */
  function Diagnosed(v: View, e: Event, k: Kind): set<Guest> {
    var listing := ListingOf(e, k);
    if listing.None? then {}
    else set g | g in Stopped(v, k, StatesOf(k, listing.value)) && !Expected(v, g, e.now)
  }

  function Run(v: View, events: seq<Event>): View {
    if events == [] then v else Step(Run(v, events[..|events| - 1]), events[|events| - 1])
  }

  // ---- The watcher itself --------------------------------------------------------------

  predicate InFamily(states: States, k: Kind) {
    forall g :: g in states ==> g.kind == k
  }

  function Restrict(states: States, k: Kind): (r: States)
    ensures InFamily(r, k)
  {
    map g | g in states && g.kind == k :: states[g]
  }

  class Watcher {
    var expected: map<Guest, int>
    var previous: Option<States>
    var known: set<Kind>
    var running: bool

    /** Only families that were read have states. */
    ghost predicate Valid()
      reads this
    {
      && (previous.None? ==> known == {})
      && (previous.Some? ==> forall g :: g in previous.value ==> g.kind in known)
    }

    ghost function Reference(): States
      reads this
    {
      if previous.Some? then previous.value else map[]
    }

    ghost function State(): View
      reads this
    {
      View(expected, map k | k in known :: Restrict(Reference(), k))
    }

    constructor ()
      ensures Valid() && State() == INITIAL && !running
    {
      expected, previous, known, running := map[], None, {}, false;
    }

    method MarkExpected(g: Guest, now: int, ttl: int)
      requires Valid()
      modifies this`expected
      ensures Valid() && State() == Step(old(State()), Mark(g, now, ttl))
    {
      expected := expected[g := now + ttl];
    }

    method Consume(g: Guest, now: int) returns (consumed: bool)
      modifies this`expected
      ensures consumed <==> g in old(expected) && old(expected)[g] > now
      ensures expected == old(expected) - {g}
    {
      if g !in expected {
        return false;
      }
      var expiry := expected[g];
      expected := expected - {g};
      return expiry > now;
    }

    method Prune(now: int)
      modifies this`expected
      ensures expected == map g | g in old(expected) && old(expected)[g] > now :: old(expected)[g]
    {
      var todo := expected.Keys;
      while todo != {}
        invariant todo <= expected.Keys <= old(expected).Keys
        invariant forall g :: g in expected ==> expected[g] == old(expected)[g]
        invariant forall g :: g in old(expected) && g !in todo ==> (g in expected <==> old(expected)[g] > now)
        decreases todo
      {
        var g :| g in todo;
        if expected[g] <= now {
          expected := expected - {g};
        }
        todo := todo - {g};
      }
    }

    /** A slow tick is never overlapped by the next one. */
    method BeginTick(now: int) returns (started: bool)
      requires Valid()
      modifies this
      ensures Valid() && started == !old(running) && running
      ensures State() == if started then Step(old(State()), Begin(now)) else old(State())
    {
      if running {
        return false;
      }
      running := true;
      Prune(now);
      return true;
    }

    method EndTick()
      requires Valid()
      modifies this`running
      ensures Valid() && !running && State() == old(State())
    {
      running := false;
    }

    /**
      Among the guests listed, those that stopped are taken off the marks, and diagnosed unless the
      mark was still good.
     */
    method Sift(now: int, order: seq<Guest>, states: States, reference: States, ghost v: View,
                ghost stopped: set<Guest>)
      returns (pending: seq<(Guest, string)>)
      requires v.expected == expected && Enumerates(order, states)
      requires forall g :: g in states ==> (g in stopped <==>
        g.kind in known && g in reference && reference[g] == "running" && !IsLive(states[g]))
      requires forall g :: g in stopped ==> g in states
      modifies this`expected
      ensures expected == v.expected - stopped
      ensures forall g :: g in Guests(pending) <==> g in stopped && !Expected(v, g, now)
      ensures Distinct(pending) && WithStates(pending, states)
    {
      pending := [];
      var i := 0;
      while i < |order|
        invariant i <= |order|
        invariant expected == v.expected - Among(stopped, order[..i])
        invariant Guests(pending) == Unexpected(v, Among(stopped, order[..i]), now)
        invariant Distinct(pending) && WithStates(pending, states)
      {
        var g := order[i];
        assert g in order && g in states;
        NextAmong(stopped, order, i);
        if g.kind in known && g in reference && reference[g] == "running" && !IsLive(states[g]) {
          var consumed := Consume(g, now);
          if !consumed {
            GuestsSnoc(pending, (g, states[g]));
            pending := pending + [(g, states[g])];
          }
        }
        i := i + 1;
      }
      assert order[..i] == order;
      assert Among(stopped, order) == stopped;
    }

    /** The synchronous part of a tick, once the listings are there. */
    method Observe(now: int, vm: Option<Listing>, lxc: Option<Listing>) returns (pending: seq<(Guest, string)>)
      requires Valid()
      modifies this
      ensures Valid() && running == old(running) && State() == Step(old(State()), Poll(now, vm, lxc))
      ensures forall g :: g in Guests(pending) <==> g in Diagnosed(old(State()), Poll(now, vm, lxc), g.kind)
      ensures Distinct(pending)
      ensures forall p :: p in pending ==> AsListed(Poll(now, vm, lxc), p.0, p.1)
    {
      hide Diagnosed, Listed, Stopped, AsListed;
      var states, order, families := Collect(vm, lxc);
      ghost var v := State();
      DiagnosedTogether(v, now, vm, lxc, states);
      if families == {} {
        NothingListed(v, now, vm, lxc, states);
        return [];
      }
      var reference := if previous.Some? then previous.value else map[];
      StoppedMeans(v, states, reference, known);
      pending := Sift(now, order, states, reference, v, AllStopped(v, states));
      PendingAsListed(pending, now, vm, lxc, states);
      var merged := Merge(reference, families, states);
      MergedReference(v, reference, states, families, merged, now, vm, lxc, known);
      previous := Some(merged);
      known := known + families;
    }
  }

  /** The state a guest is diagnosed in is the one listed. */
  predicate AsListed(e: Event, g: Guest, state: string) {
    ListingOf(e, g.kind).Some? && Guest(g.kind, g.name) in StatesOf(g.kind, ListingOf(e, g.kind).value)
    && StatesOf(g.kind, ListingOf(e, g.kind).value)[g] == state
  }

  predicate WithStates(pending: seq<(Guest, string)>, states: States) {
    forall p :: p in pending ==> p.0 in states && p.1 == states[p.0]
  }

  lemma PendingAsListed(pending: seq<(Guest, string)>, now: int, vm: Option<Listing>, lxc: Option<Listing>,
                        states: States)
    requires states == Listed(VmKind, vm) + Listed(LxcKind, lxc) && WithStates(pending, states)
    ensures forall p :: p in pending ==> AsListed(Poll(now, vm, lxc), p.0, p.1)
  {
    hide StatesOf;
  }

  lemma NothingListed(v: View, now: int, vm: Option<Listing>, lxc: Option<Listing>, states: States)
    requires vm.None? && lxc.None? && states == Listed(VmKind, vm) + Listed(LxcKind, lxc)
    ensures Step(v, Poll(now, vm, lxc)) == v && AllStopped(v, states) == {}
  {
  }

  lemma StoppedMeans(v: View, states: States, reference: States, known: set<Kind>)
    requires v.last == map k | k in known :: Restrict(reference, k)
    ensures forall g :: g in AllStopped(v, states) <==>
      g in states && g.kind in known && g in reference && reference[g] == "running" && !IsLive(states[g])
  {
  }

  // ---- The loops of a tick -----------------------------------------------------------------

  function Guests(pending: seq<(Guest, string)>): set<Guest> {
    set p | p in pending :: p.0
  }

  predicate Distinct(pending: seq<(Guest, string)>) {
    forall i, j :: 0 <= i < j < |pending| ==> pending[i].0 != pending[j].0
  }

  lemma GuestsSnoc(pending: seq<(Guest, string)>, p: (Guest, string))
    ensures Guests(pending + [p]) == Guests(pending) + {p.0}
    ensures Distinct(pending) && p.0 !in Guests(pending) ==> Distinct(pending + [p])
  {
    forall i | 0 <= i < |pending|
      ensures pending[i].0 in Guests(pending)
    {
      assert pending[i] in pending;
    }
  }

  function Among(guests: set<Guest>, order: seq<Guest>): set<Guest> {
    set g | g in guests && g in order
  }

  function AllStopped(v: View, states: States): set<Guest> {
    Stopped(v, VmKind, Restrict(states, VmKind)) + Stopped(v, LxcKind, Restrict(states, LxcKind))
  }

  function Listed(k: Kind, listing: Option<Listing>): (s: States)
    ensures InFamily(s, k)
  {
    if listing.Some? then StatesOf(k, listing.value) else map[]
  }

  function Unexpected(v: View, guests: set<Guest>, now: int): set<Guest> {
    set g | g in guests && !Expected(v, g, now)
  }

  lemma NextAmong(stopped: set<Guest>, order: seq<Guest>, i: nat)
    requires i < |order| && forall i, j :: 0 <= i < j < |order| ==> order[i] != order[j]
    ensures Among(stopped, order[..i + 1])
        == Among(stopped, order[..i]) + (if order[i] in stopped then {order[i]} else {})
    ensures order[i] !in order[..i] && order[i] !in Among(stopped, order[..i])
  {
    TakeNext(order, i);
  }

  lemma StatesNext(k: Kind, listing: Listing, i: nat, states0: States)
    requires i < |listing|
    ensures states0 + StatesOf(k, listing[..i + 1])
         == (states0 + StatesOf(k, listing[..i]))[
               Guest(k, listing[i].0) := if listing[i].1.Some? then listing[i].1.value else "unknown"]
  {
    assert listing[..i + 1][..i] == listing[..i];
  }

  lemma EnumeratesNext(order: seq<Guest>, states: States, g: Guest, state: string)
    requires Enumerates(order, states)
    ensures Enumerates(if g in states then order else order + [g], states[g := state])
  {
    if g !in states {
      assert g !in order;
    }
  }

  /** States in the order the Map was filled; a name listed twice keeps its place and takes its last state. */
  method Append(k: Kind, listing: Listing, states0: States, order0: seq<Guest>)
    returns (states: States, order: seq<Guest>)
    requires Enumerates(order0, states0)
    ensures states == states0 + StatesOf(k, listing) && Enumerates(order, states)
  {
    hide Enumerates, StatesOf;
    states, order := states0, order0;
    NoStates(k, listing);
    var i := 0;
    while i < |listing|
      invariant i <= |listing|
      invariant states == states0 + StatesOf(k, listing[..i])
      invariant Enumerates(order, states)
    {
      var g := Guest(k, listing[i].0);
      var state := if listing[i].1.Some? then listing[i].1.value else "unknown";
      StatesNext(k, listing, i, states0);
      EnumeratesNext(order, states, g, state);
      if g !in states {
        order := order + [g];
      }
      states := states[g := state];
      i := i + 1;
    }
    assert listing[..i] == listing;
  }

  lemma NoStates(k: Kind, listing: Listing)
    ensures StatesOf(k, listing[..0]) == map[]
  {
  }

  ghost predicate Enumerates(order: seq<Guest>, states: States) {
    && (forall g :: g in order <==> g in states)
    && (forall i, j :: 0 <= i < j < |order| ==> order[i] != order[j])
  }

  method Collect(vm: Option<Listing>, lxc: Option<Listing>)
    returns (states: States, order: seq<Guest>, families: set<Kind>)
    ensures states == Listed(VmKind, vm) + Listed(LxcKind, lxc) && Enumerates(order, states)
    ensures families == Families(vm, lxc) && forall g :: g in states ==> g.kind in families
  {
    hide StatesOf, Enumerates;
    states, order, families := map[], [], {};
    NothingEnumerated();
    if vm.Some? {
      families := families + {VmKind};
      states, order := Append(VmKind, vm.value, states, order);
    }
    assert states == Listed(VmKind, vm);
    if lxc.Some? {
      families := families + {LxcKind};
      states, order := Append(LxcKind, lxc.value, states, order);
    }
  }

  lemma NothingEnumerated()
    ensures Enumerates([], map[])
  {
  }

  function Families(vm: Option<Listing>, lxc: Option<Listing>): set<Kind> {
    (if vm.Some? then {VmKind} else {}) + (if lxc.Some? then {LxcKind} else {})
  }

  /** The new reference: a family that was read is replaced, the others are kept. */
  method Merge(reference: States, families: set<Kind>, states: States) returns (merged: States)
    requires forall g :: g in states ==> g.kind in families
    ensures forall g :: g in merged <==> g in states || (g in reference && g.kind !in families)
    ensures forall g :: g in merged ==> merged[g] == if g in states then states[g] else reference[g]
  {
    merged := reference;
    var todo := merged.Keys;
    while todo != {}
      invariant todo <= merged.Keys <= reference.Keys
      invariant forall g :: g in merged ==> merged[g] == reference[g]
      invariant forall g :: g in reference && g !in todo ==> (g in merged <==> !(g.kind in families && g !in states))
      decreases todo
    {
      var g :| g in todo;
      if g.kind in families && g !in states {
        merged := merged - {g};
      }
      todo := todo - {g};
    }
    merged := merged + states;
  }

  lemma ListedApart(vm: Option<Listing>, lxc: Option<Listing>, states: States)
    requires states == Listed(VmKind, vm) + Listed(LxcKind, lxc)
    ensures Restrict(states, VmKind) == Listed(VmKind, vm) && Restrict(states, LxcKind) == Listed(LxcKind, lxc)
  {
  }

  lemma DiagnosedTogether(v: View, now: int, vm: Option<Listing>, lxc: Option<Listing>, states: States)
    requires states == Listed(VmKind, vm) + Listed(LxcKind, lxc)
    ensures forall g ::
      (g in AllStopped(v, states) && !Expected(v, g, now)) == (g in Diagnosed(v, Poll(now, vm, lxc), g.kind))
  {
    ListedApart(vm, lxc, states);
  }

  lemma MergedReference(v: View, reference: States, states: States, families: set<Kind>, merged: States,
                        now: int, vm: Option<Listing>, lxc: Option<Listing>, known: set<Kind>)
    requires states == Listed(VmKind, vm) + Listed(LxcKind, lxc) && families == Families(vm, lxc)
    requires forall g :: g in merged <==> g in states || (g in reference && g.kind !in families)
    requires forall g :: g in merged ==> merged[g] == if g in states then states[g] else reference[g]
    requires forall g :: g in states ==> g.kind in families
    requires v.last == map k | k in known :: Restrict(reference, k)
    ensures Step(v, Poll(now, vm, lxc))
         == View(v.expected - AllStopped(v, states), map k | k in known + families :: Restrict(merged, k))
  {
    hide Stopped, Listed, Restrict, Read, AllStopped, Families;
    BothRead(v, vm, lxc, states);
    forall k | k in known + families
      ensures Restrict(merged, k) == if k in families then Restrict(states, k) else Restrict(reference, k)
    {
      RestrictMerged(reference, states, families, merged, k);
    }
  }

  lemma RestrictMerged(reference: States, states: States, families: set<Kind>, merged: States, k: Kind)
    requires forall g :: g in merged <==> g in states || (g in reference && g.kind !in families)
    requires forall g :: g in merged ==> merged[g] == if g in states then states[g] else reference[g]
    requires forall g :: g in states ==> g.kind in families
    ensures Restrict(merged, k) == if k in families then Restrict(states, k) else Restrict(reference, k)
  {
  }

  /** Reading the two families one after the other is reading both: they share no guest. */
  lemma BothRead(v: View, vm: Option<Listing>, lxc: Option<Listing>, states: States)
    requires states == Listed(VmKind, vm) + Listed(LxcKind, lxc)
    ensures var w := Read(Read(v, VmKind, vm), LxcKind, lxc);
      && w.expected == v.expected - AllStopped(v, states)
      && (forall k :: k in w.last <==> k in v.last || k in Families(vm, lxc))
      && (forall k :: k in w.last ==> w.last[k] == if k in Families(vm, lxc) then Restrict(states, k) else v.last[k])
  {
    hide StatesOf, IsLive, Restrict, Stopped, Listed;
    ListedApart(vm, lxc, states);
    StoppedNothing(v);
    var u := Read(v, VmKind, vm);
    StoppedOfOther(v, u, Listed(LxcKind, lxc));
    ListedIs(VmKind, vm);
    ListedIs(LxcKind, lxc);
  }

  lemma ListedIs(k: Kind, listing: Option<Listing>)
    ensures Listed(k, listing) == if listing.Some? then StatesOf(k, listing.value) else map[]
  {
  }

  lemma StoppedOfOther(v: View, u: View, states: States)
    requires LxcKind in v.last <==> LxcKind in u.last
    requires LxcKind in v.last ==> v.last[LxcKind] == u.last[LxcKind]
    ensures Stopped(u, LxcKind, states) == Stopped(v, LxcKind, states)
  {
  }

  lemma StoppedNothing(v: View)
    ensures forall k :: Stopped(v, k, map[]) == {}
  {
  }
}
