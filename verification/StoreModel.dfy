// What the configuration store holds after any history of informer events.
module StoreModel {
  import opened Values
  import opened ConfigMerge
  import opened Keys

  type Entries<T> = map<string, map<string, T>>

  type Contents = map<string, Option<Version>>

  // Some entry of an object in namespace ns has the key k.
  ghost predicate Names<T>(ns: string, entries: Entries<T>, k: string) {
    exists n, v :: n in entries && v in entries[n] && KeyFor(ns, n, v) == k
  }

  // ... and is x.
  ghost predicate Holds<T>(ns: string, entries: Entries<T>, k: string, x: T) {
    exists n, v :: n in entries && v in entries[n] && KeyFor(ns, n, v) == k && entries[n][v] == x
  }

  // Every entry is written under its key, in any order.
  ghost predicate Puts<T>(before: map<string, T>, after: map<string, T>, ns: string, entries: Entries<T>) {
    && (forall k :: k in after <==> k in before || Names(ns, entries, k))
    && (forall k :: k in after ==>
          if Names(ns, entries, k) then Holds(ns, entries, k, after[k]) else k in before && after[k] == before[k])
  }

  // The key of every entry is removed.
  ghost predicate Drops<T, S>(before: map<string, T>, after: map<string, T>, ns: string, entries: Entries<S>) {
    && (forall k :: k in after <==> k in before && !Names(ns, entries, k))
    && (forall k :: k in after ==> k in before && after[k] == before[k])
  }

  // ----- the loops of the two handlers ----------------------------------------------

  function Grown<T>(entries: Entries<T>, n: string, v: string, x: T): Entries<T>
    requires n in entries && v !in entries[n]
  {
    entries[n := entries[n][v := x]]
  }

  lemma NamesGrown<T>(ns: string, entries: Entries<T>, n: string, v: string, x: T, k: string)
    requires n in entries && v !in entries[n]
    ensures Names(ns, Grown(entries, n, v, x), k) <==> Names(ns, entries, k) || k == KeyFor(ns, n, v)
    ensures k == KeyFor(ns, n, v) ==> Holds(ns, Grown(entries, n, v, x), k, x)
    ensures forall y :: Holds(ns, entries, k, y) ==> Holds(ns, Grown(entries, n, v, x), k, y)
  {
    hide KeyFor;
    var more := Grown(entries, n, v, x);
    assert v in more[n] && more[n][v] == x;
    assert forall m, w :: m in more && w in more[m] <==> (m == n && w == v) || (m in entries && w in entries[m]);
    assert forall m, w :: m in entries && w in entries[m] ==> more[m][w] == entries[m][w];
  }

  lemma PutOne<T>(before: map<string, T>, after: map<string, T>, ns: string, entries: Entries<T>, n: string,
                  v: string, x: T)
    requires n in entries && v !in entries[n] && Puts(before, after, ns, entries)
    ensures Puts(before, after[KeyFor(ns, n, v) := x], ns, Grown(entries, n, v, x))
  {
    hide Names, Holds, KeyFor, Grown;
    forall k
      ensures Names(ns, Grown(entries, n, v, x), k) <==> Names(ns, entries, k) || k == KeyFor(ns, n, v)
      ensures k == KeyFor(ns, n, v) ==> Holds(ns, Grown(entries, n, v, x), k, x)
      ensures forall y :: Holds(ns, entries, k, y) ==> Holds(ns, Grown(entries, n, v, x), k, y)
    {
      NamesGrown(ns, entries, n, v, x, k);
    }
  }

  lemma NoNames<T>(ns: string)
    ensures forall k :: !Names<T>(ns, map[], k)
  {
  }

  // A browser without versions adds nothing.
  lemma NamesNone<T>(ns: string, entries: Entries<T>, n: string)
    requires n !in entries
    ensures forall k :: Names(ns, entries[n := map[]], k) <==> Names(ns, entries, k)
    ensures forall k, x :: Holds(ns, entries[n := map[]], k, x) <==> Holds(ns, entries, k, x)
  {
    hide KeyFor;
    var more := entries[n := map[]];
    assert forall m, w :: m in entries && w in entries[m] <==> m in more && w in more[m];
  }

  lemma DropOne<T, S>(before: map<string, T>, after: map<string, T>, ns: string, entries: Entries<S>,
                      n: string, v: string, x: S)
    requires n in entries && v !in entries[n] && Drops(before, after, ns, entries)
    ensures Drops(before, after - {KeyFor(ns, n, v)}, ns, Grown(entries, n, v, x))
  {
    hide Names, KeyFor, Grown;
    forall k ensures Names(ns, Grown(entries, n, v, x), k) <==> Names(ns, entries, k) || k == KeyFor(ns, n, v) {
      NamesGrown(ns, entries, n, v, x, k);
    }
  }

  lemma NamesAlike<T, S>(ns: string, a: Entries<T>, b: Entries<S>)
    requires a.Keys == b.Keys && forall n :: n in a ==> a[n].Keys == b[n].Keys
    ensures forall k :: Names(ns, a, k) <==> Names(ns, b, k)
  {
    hide KeyFor;
    assert forall n, v :: n in a && v in a[n] <==> n in b && v in b[n];
  }

  lemma NamesMerged(ns: string, spec: Spec)
    ensures forall k :: Names(ns, MergeSpec(spec).browsers, k) <==> Names(ns, spec.browsers, k)
  {
    NamesAlike(ns, MergeSpec(spec).browsers, spec.browsers);
  }

  // ----- events and histories -----------------------------------------------------------

  // What an informer delivers. A deletion carries the object as the informer knew it.
  datatype Event =
    | Put(ns: string, name: string, spec: Spec)
    | Drop(ns: string, name: string, spec: Spec)
    | Nothing

  ghost predicate Applied(before: Contents, after: Contents, e: Event) {
    match e
    case Put(ns, _, spec) => Puts(before, after, ns, MergeSpec(spec).browsers)
    case Drop(ns, _, spec) => Drops(before, after, ns, spec.browsers)
    case Nothing => after == before
  }

  ghost predicate Touches(e: Event, k: string) {
    !e.Nothing? && Names(e.ns, e.spec.browsers, k)
  }

  // The states an initially empty store goes through.
  ghost predicate History(states: seq<Contents>, events: seq<Event>) {
    && |states| == |events| + 1 && states[0] == map[]
    && forall i :: 0 <= i < |events| ==> Applied(states[i], states[i + 1], events[i])
  }

  // The latest event that names the key.
  ghost function LastNaming(events: seq<Event>, k: string): Option<Event> {
    if events == [] then None
    else if Touches(events[|events| - 1], k) then Some(events[|events| - 1])
    else LastNaming(events[..|events| - 1], k)
  }

  // After any history a key is present exactly when the latest event that names it is an
  // addition or update, and then holds a merged entry of that event.
  lemma {:induction false} LastWriter(states: seq<Contents>, events: seq<Event>, k: string)
    requires History(states, events)
    ensures var last, e := states[|events|], LastNaming(events, k);
            && (k in last <==> e.Some? && e.value.Put?)
            && (k in last ==> Holds(e.value.ns, MergeSpec(e.value.spec).browsers, k, last[k]))
  {
    hide Names, Holds, MergeSpec;
    if events != [] {
      var n := |events| - 1;
      var e := events[n];
      assert Applied(states[n], states[n + 1], e);
      LastWriter(states[..n + 1], events[..n], k);
      if e.Put? {
        NamesMerged(e.ns, e.spec);
      }
    }
  }

  // ----- lookups by name ----------------------------------------------------------------

  // The entry x is there under that browser and version, up to letter case.
  ghost predicate Delivers<T>(entries: Entries<T>, browser: string, version: string, x: T) {
    exists n, v :: n in entries && v in entries[n] && SameName(n, browser) && SameName(v, version) && entries[n][v] == x
  }

  ghost predicate Delivered<T>(entries: Entries<T>, browser: string, version: string) {
    exists n, v :: n in entries && v in entries[n] && SameName(n, browser) && SameName(v, version)
  }

  ghost predicate Concerns(e: Event, ns: string, browser: string, version: string) {
    !e.Nothing? && e.ns == ns && Delivered(e.spec.browsers, browser, version)
  }

  // The latest event about that browser and version.
  ghost function LastConcerning(events: seq<Event>, ns: string, browser: string, version: string): Option<Event> {
    if events == [] then None
    else if Concerns(events[|events| - 1], ns, browser, version) then Some(events[|events| - 1])
    else LastConcerning(events[..|events| - 1], ns, browser, version)
  }

  // The names in use do not contain the separators of a key.
  predicate Plain(e: Event) {
    !e.Nothing? ==> '/' !in e.ns && forall n :: n in e.spec.browsers ==> ':' !in n
  }

  ghost predicate AllPlain(events: seq<Event>, ns: string, browser: string) {
    '/' !in ns && ':' !in browser && forall i :: 0 <= i < |events| ==> Plain(events[i])
  }

  lemma TouchesInAnyCase(e: Event, ns: string, browser: string, version: string)
    requires Plain(e) && '/' !in ns && ':' !in browser
    ensures Touches(e, KeyFor(ns, browser, version)) <==> Concerns(e, ns, browser, version)
    ensures e.Put? ==> forall x ::
      Holds(e.ns, MergeSpec(e.spec).browsers, KeyFor(ns, browser, version), x) ==>
        Delivers(MergeSpec(e.spec).browsers, browser, version, x)
  {
    hide KeyFor, SameName;
    if !e.Nothing? {
      forall n, v | n in e.spec.browsers && v in e.spec.browsers[n]
        ensures KeyFor(e.ns, n, v) == KeyFor(ns, browser, version) <==>
          e.ns == ns && SameName(n, browser) && SameName(v, version)
      {
        PlainKeysExact(e.ns, n, v, ns, browser, version);
      }
    }
  }

  // Without separators in names, the event that decides about a key is the latest one about
  // its browser and version in any casing.
  lemma {:induction false} LastInAnyCase(events: seq<Event>, ns: string, browser: string, version: string)
    requires AllPlain(events, ns, browser)
    ensures var e := LastNaming(events, KeyFor(ns, browser, version));
            && e == LastConcerning(events, ns, browser, version)
            && (e.Some? && e.value.Put? ==> forall x ::
                  Holds(e.value.ns, MergeSpec(e.value.spec).browsers, KeyFor(ns, browser, version), x) ==>
                    Delivers(MergeSpec(e.value.spec).browsers, browser, version, x))
  {
    hide KeyFor, Touches, Concerns, Plain, Holds, Delivers, MergeSpec;
    if events != [] {
      var n := |events| - 1;
      TouchesInAnyCase(events[n], ns, browser, version);
      LastInAnyCase(events[..n], ns, browser, version);
    }
  }

  // No two entries of an object have the same key.
  ghost predicate Unambiguous<T>(ns: string, entries: Entries<T>) {
    forall n, v, m, w ::
      (n in entries && v in entries[n] && m in entries && w in entries[m] && KeyFor(ns, n, v) == KeyFor(ns, m, w))
      ==> n == m && v == w
  }

  // Entries of an object that have the same key are equal.
  ghost predicate Agreeing(ns: string, entries: Entries<Option<Version>>) {
    forall k, x, y :: Holds(ns, entries, k, x) && Holds(ns, entries, k, y) ==> x == y
  }

  lemma UnambiguousAgrees(ns: string, entries: Entries<Option<Version>>)
    requires Unambiguous(ns, entries)
    ensures Agreeing(ns, entries)
  {
  }

  // If the entries of that event have distinct keys, it is the merged entry of that key.
  lemma LastWriterExact(states: seq<Contents>, events: seq<Event>, n: string, v: string, e: Event)
    requires History(states, events) && e.Put? && Unambiguous(e.ns, e.spec.browsers)
    requires n in e.spec.browsers && v in e.spec.browsers[n]
    requires LastNaming(events, KeyFor(e.ns, n, v)) == Some(e)
    ensures var key, last := KeyFor(e.ns, n, v), states[|events|];
            key in last && last[key] == MergeEntryV(e.spec.template, e.spec.browsers[n][v])
  {
    hide KeyFor, MergeEntryV, LastNaming;
    var key, last, merged := KeyFor(e.ns, n, v), states[|events|], MergeSpec(e.spec).browsers;
    LastWriter(states, events, key);
    assert Unambiguous(e.ns, merged);
    UnambiguousAgrees(e.ns, merged);
    assert Holds(e.ns, merged, key, merged[n][v]);
  }

  ghost function KeysOf<T>(ns: string, entries: Entries<T>): (r: set<string>)
    ensures forall k :: k in r <==> Names(ns, entries, k)
  {
    set n, v | n in entries && v in entries[n] :: KeyFor(ns, n, v)
  }

  ghost function Pick<T>(ns: string, entries: Entries<T>, k: string): (x: T)
    requires Names(ns, entries, k)
    ensures Holds(ns, entries, k, x)
  {
    var n, v :| n in entries && v in entries[n] && KeyFor(ns, n, v) == k;
    entries[n][v]
  }

  ghost function SomePut(before: Contents, ns: string, entries: Entries<Option<Version>>): (after: Contents)
    ensures Puts(before, after, ns, entries)
  {
    map k | k in before.Keys + KeysOf(ns, entries) :: if Names(ns, entries, k) then Pick(ns, entries, k) else before[k]
  }

  // The order in which the maps are traversed shows in the store exactly when two entries
  // of the object have the same key and differ.
  lemma OrderIrrelevant(before: Contents, ns: string, entries: Entries<Option<Version>>)
    ensures (forall a, b :: Puts(before, a, ns, entries) && Puts(before, b, ns, entries) ==> a == b)
       <==> Agreeing(ns, entries)
  {
    hide Names, Holds;
    if !Agreeing(ns, entries) {
      var k, x, y :| Holds(ns, entries, k, x) && Holds(ns, entries, k, y) && x != y;
      HoldsNames(ns, entries, k, x);
      var a := SomePut(before, ns, entries);
      PutAgain(before, a, ns, entries, k, x);
      PutAgain(before, a, ns, entries, k, y);
      assert a[k := x][k] != a[k := y][k];
    }
  }

  lemma PutAgain(before: Contents, a: Contents, ns: string, entries: Entries<Option<Version>>, k: string,
                 x: Option<Version>)
    requires Puts(before, a, ns, entries) && Holds(ns, entries, k, x)
    ensures Puts(before, a[k := x], ns, entries)
  {
    hide Names, Holds;
    HoldsNames(ns, entries, k, x);
  }

  lemma HoldsNames<T>(ns: string, entries: Entries<T>, k: string, x: T)
    requires Holds(ns, entries, k, x)
    ensures Names(ns, entries, k)
  {
  }

  // Delivering an event again changes nothing, however often.
  lemma {:induction false} Replay(states: seq<Contents>, e: Event)
    requires |states| >= 2 && forall i :: 0 <= i < |states| - 1 ==> Applied(states[i], states[i + 1], e)
    requires e.Put? ==> Agreeing(e.ns, MergeSpec(e.spec).browsers)
    ensures forall i :: 1 <= i < |states| ==> states[i] == states[1]
  {
    hide Names, Holds, MergeSpec;
    if |states| > 2 {
      var n := |states| - 1;
      Replay(states[..n], e);
      assert Applied(states[n - 2], states[n - 1], e) && Applied(states[n - 1], states[n], e);
      assert states[n] == states[n - 1];
    }
  }

  // ----- the live objects ------------------------------------------------------------------

  type Objects = map<(string, string), Spec>

  function After(live: Objects, e: Event): Objects {
    match e
    case Put(ns, name, spec) => live[(ns, name) := spec]
    case Drop(ns, name, _) => live - {(ns, name)}
    case Nothing => live
  }

  function Live(events: seq<Event>): Objects {
    if events == [] then map[] else After(Live(events[..|events| - 1]), events[|events| - 1])
  }

  ghost predicate Uses(live: Objects, o: (string, string), k: string) {
    o in live && Names(o.0, live[o].browsers, k)
  }

  // No two entries of live objects have the same key.
  ghost predicate Separate(live: Objects) {
    && (forall o, p, k :: Uses(live, o, k) && Uses(live, p, k) ==> o == p)
    && (forall o :: o in live ==> Unambiguous(o.0, live[o].browsers))
  }

  // The store holds exactly the keys of the live objects, each with its merged entry.
  ghost predicate Matches(store: Contents, live: Objects) {
    && (forall k :: k in store <==> exists o :: Uses(live, o, k))
    && (forall k, o :: k in store && Uses(live, o, k) ==> Holds(o.0, MergeSpec(live[o]).browsers, k, store[k]))
  }

  // An update keeps all keys of the object; a deletion names all of them, and no key of
  // another object.
  ghost predicate KeepsUp(live: Objects, e: Event) {
    match e
    case Put(ns, name, spec) => forall k :: Uses(live, (ns, name), k) ==> Names(ns, spec.browsers, k)
    case Drop(ns, name, spec) =>
      && (forall k :: Uses(live, (ns, name), k) ==> Names(ns, spec.browsers, k))
      && (forall o, k :: Uses(live, o, k) && o != (ns, name) ==> !Names(ns, spec.browsers, k))
    case Nothing => true
  }

  lemma UsesAfter(live: Objects, e: Event, o: (string, string), k: string)
    ensures Uses(After(live, e), o, k) <==>
      match e
      case Put(ns, name, spec) => if o == (ns, name) then Names(ns, spec.browsers, k) else Uses(live, o, k)
      case Drop(ns, name, _) => o != (ns, name) && Uses(live, o, k)
      case Nothing => Uses(live, o, k)
  {
  }

  lemma UsesIn(live: Objects, o: (string, string), k: string)
    requires Uses(live, o, k)
    ensures o in live
  {
  }

  lemma PutKept(store: Contents, after: Contents, live: Objects, e: Event)
    requires e.Put? && Matches(store, live) && Separate(live) && Separate(After(live, e)) && Applied(store, after, e)
    ensures Matches(after, After(live, e)) <==> KeepsUp(live, e)
  {
    hide Names, Holds, MergeSpec, Uses, Unambiguous;
    var next, o := After(live, e), (e.ns, e.name);
    NamesMerged(e.ns, e.spec);
    forall p, k ensures Uses(next, p, k) <==> if p == o then Names(e.ns, e.spec.browsers, k) else Uses(live, p, k) {
      UsesAfter(live, e, p, k);
    }
    if KeepsUp(live, e) {
      forall k ensures k in after <==> exists p :: Uses(next, p, k) {
        assert Uses(next, o, k) <==> Names(e.ns, e.spec.browsers, k);
        if k in store {
          var p :| Uses(live, p, k);
          assert p == o || Uses(next, p, k);
        }
      }
      forall k, p | k in after && Uses(next, p, k)
          ensures p in next && Holds(p.0, MergeSpec(next[p]).browsers, k, after[k]) {
        UsesIn(next, p, k);
      }
    } else {
      var k :| Uses(live, o, k) && !Names(e.ns, e.spec.browsers, k);
      assert k in after;
      assert !exists p :: Uses(next, p, k);
    }
  }

  lemma DropKept(store: Contents, after: Contents, live: Objects, e: Event)
    requires e.Drop? && Matches(store, live) && Separate(live) && Separate(After(live, e)) && Applied(store, after, e)
    ensures Matches(after, After(live, e)) <==> KeepsUp(live, e)
  {
    hide Names, Holds, MergeSpec, Uses, Unambiguous;
    var next, o := After(live, e), (e.ns, e.name);
    forall p, k ensures Uses(next, p, k) <==> p != o && Uses(live, p, k) {
      UsesAfter(live, e, p, k);
    }
    if KeepsUp(live, e) {
      forall k ensures k in after <==> exists p :: Uses(next, p, k) {
        if k in store {
          var p :| Uses(live, p, k);
          assert p != o ==> Uses(next, p, k);
        }
      }
      forall k, p | k in after && Uses(next, p, k)
          ensures p in next && Holds(p.0, MergeSpec(next[p]).browsers, k, after[k]) {
        UsesIn(next, p, k);
      }
    } else if k :| Uses(live, o, k) && !Names(e.ns, e.spec.browsers, k) {
      assert k in after;
      assert !exists p :: Uses(next, p, k);
    } else {
      var p, k :| Uses(live, p, k) && p != o && Names(e.ns, e.spec.browsers, k);
      assert k !in after && Uses(next, p, k);
    }
  }

  // A store that matches the live objects still does after an event exactly when the
  // event keeps up with them.
  lemma MatchKept(store: Contents, after: Contents, live: Objects, e: Event)
    requires Matches(store, live) && Separate(live) && Separate(After(live, e)) && Applied(store, after, e)
    ensures Matches(after, After(live, e)) <==> KeepsUp(live, e)
  {
    match e
    case Put(_, _, _) => PutKept(store, after, live, e);
    case Drop(_, _, _) => DropKept(store, after, live, e);
    case Nothing =>
  }

  lemma LiveNext(events: seq<Event>, n: nat)
    requires n < |events|
    ensures Live(events[..n + 1]) == After(Live(events[..n]), events[n])
  {
    assert events[..n + 1][..n] == events[..n];
  }

  // The store agrees with the live objects all along the first n events of a history
  // exactly when every one of them keeps up with the objects.
  lemma {:induction false} StoreIsLiveSet(states: seq<Contents>, events: seq<Event>, n: nat)
    requires History(states, events) && n <= |events|
    requires forall i :: 0 <= i <= n ==> Separate(Live(events[..i]))
    ensures (forall i :: 0 <= i <= n ==> Matches(states[i], Live(events[..i])))
       <==> (forall i :: 0 <= i < n ==> KeepsUp(Live(events[..i]), events[i]))
  {
    hide Matches, Separate, KeepsUp, Applied, After, Live;
    if n == 0 {
      NothingMatches(events);
    } else {
      StoreIsLiveSet(states, events, n - 1);
      LiveNext(events, n - 1);
      if Matches(states[n - 1], Live(events[..n - 1])) {
        MatchKept(states[n - 1], states[n], Live(events[..n - 1]), events[n - 1]);
      }
    }
  }

  lemma NothingMatches(events: seq<Event>)
    ensures Matches(map[], Live(events[..0]))
  {
  }

  // An update that leaves out a version: its entry stays although no live object has it.
  lemma DroppedVersionStays(ns: string, name: string, was: Spec, now: Spec, k: string, states: seq<Contents>)
    requires Names(ns, was.browsers, k) && !Names(ns, now.browsers, k)
    requires History(states, [Put(ns, name, was), Put(ns, name, now)])
    ensures k in states[2] && !Uses(Live([Put(ns, name, was), Put(ns, name, now)]), (ns, name), k)
  {
    var events := [Put(ns, name, was), Put(ns, name, now)];
    assert Applied(states[0], states[1], events[0]) && Applied(states[1], states[2], events[1]);
    NamesMerged(ns, was);
    assert events[..1] == [events[0]];
  }
}
