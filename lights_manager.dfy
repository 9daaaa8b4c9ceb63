/** The scene-wide registry of deferred lights: a singleton manager whose list the
    lights join when they are enabled and leave when they are destroyed. */
module LightsManager {

  /** A light component; the registry only compares lights by identity. */
  class DeferredLightsData {
  }

  /** The position of the first occurrence of x. */
  function IndexOf<T(==)>(s: seq<T>, x: T): (i: nat)
    requires x in s
    ensures i < |s| && s[i] == x && x !in s[..i]
    decreases |s|
  {
    if s[0] == x then 0
    else
      var j := IndexOf(s[1..], x);
      assert s[..j + 1] == [s[0]] + s[1..][..j];
      j + 1
  }

  /** `List<T>.Remove`: drop the first occurrence of x, if there is one. */
  function RemoveFirst<T(==)>(s: seq<T>, x: T): (r: seq<T>)
    ensures x !in s ==> r == s
    ensures multiset(r) == multiset(s) - multiset{x}
  {
    if x in s then
      var i := IndexOf(s, x);
      assert s == s[..i] + [x] + s[i + 1..];
      s[..i] + s[i + 1..]
    else s
  }

  /** The first occurrence is the only index i with s[i] == x and no x before it, so
      it is the one `RemoveFirst` cuts out; the order of the rest is kept. */
  lemma RemoveFirstCutsFirst<T>(s: seq<T>, x: T, i: nat)
    requires i < |s| && s[i] == x && x !in s[..i]
    ensures RemoveFirst(s, x) == s[..i] + s[i + 1..]
  {
    var j := IndexOf(s, x);
    AbsentBefore(s, x, i);
    AbsentBefore(s, x, j);
  }

  /** No element before index k equals x when x is not in the first k elements. */
  lemma AbsentBefore<T>(s: seq<T>, x: T, k: nat)
    requires k <= |s| && x !in s[..k]
    ensures forall j :: 0 <= j < k ==> s[j] != x
  {
    forall j | 0 <= j < k
      ensures s[j] != x
    {
      assert s[..k][j] == s[j];
    }
  }

  /** Adding a light and then removing it again leaves the lights with the same
      multiplicities, but not necessarily in the same order. */
  lemma AddThenRemoveKeepsMultiset<T>(s: seq<T>, x: T)
    ensures multiset(RemoveFirst(s + [x], x)) == multiset(s)
  {
    assert multiset(s + [x]) == multiset(s) + multiset{x};
  }

  /** When the light was not registered before, adding and removing it restores the
      list exactly. */
  lemma AddThenRemoveFresh<T>(s: seq<T>, x: T)
    requires x !in s
    ensures RemoveFirst(s + [x], x) == s
  {
    var t := s + [x];
    assert t[..|s|] == s && t[|s|] == x;
    RemoveFirstCutsFirst(t, x, |s|);
    assert t[|s| + 1..] == [];
  }

  /** When it was, the earlier copy is the one removed, so the order changes. */
  lemma AddThenRemoveReorders<T>(a: T, b: T)
    requires a != b
    ensures RemoveFirst([a, b] + [a], a) == [b, a] != [a, b]
  {
    assert [a, b] + [a] == [a, b, a];
    assert [a, b, a][1..] == [b, a];
  }

  class DeferredLightsManager {
    /** The list's contents; meaningful only once `hasList` holds. */
    var deferredLights: seq<DeferredLightsData>
    /** False while the `deferredLights` field is still null: it has no initialiser
        and only the `Awake` that makes this manager the instance assigns it. */
    var hasList: bool
    /** Set by `Destroy(this)`. */
    var destroyed: bool

    constructor ()
      ensures !hasList && !destroyed
    {
      deferredLights := [];
      hasList := false;
      destroyed := false;
    }
  }

  /** The static `instance` field and the static methods that go through it. */
  class ManagerStatics {
    var instance: DeferredLightsManager?

    /** The instance, once there is one, holds a list: the static methods never
        meet a null list. */
    predicate Valid()
      reads this, instance
    {
      instance != null ==> instance.hasList
    }

    constructor ()
      ensures instance == null && Valid()
    {
      instance := null;
    }

    /** `Awake`: the first manager becomes the instance and takes the lights found in
        the scene; any later one destroys itself and touches nothing else, so its own
        list stays null. */
    method Awake(m: DeferredLightsManager, sceneLights: seq<DeferredLightsData>)
      requires Valid()
      modifies this, m
      ensures Valid()
      ensures old(instance) == null ==> instance == m && m.hasList && m.deferredLights == sceneLights && m.destroyed == old(m.destroyed)
      ensures old(instance) != null ==>
                instance == old(instance) && m.destroyed && m.hasList == old(m.hasList) && m.deferredLights == old(m.deferredLights)
    {
      if instance == null {
        instance := m;
      } else {
        m.destroyed := true;
        return;
      }
      m.deferredLights := [];
      m.hasList := true;
      m.deferredLights := sceneLights;
    }

    /** `AddLight`: append, duplicates included; nothing happens without an instance. */
    method AddLight(light: DeferredLightsData)
      requires Valid()
      modifies instance
      ensures Valid()
      ensures old(instance) == null ==> unchanged(this)
      ensures old(instance) != null ==> instance.deferredLights == old(instance.deferredLights) + [light]
      ensures instance == old(instance)
      ensures old(instance) != null ==> instance.destroyed == old(instance.destroyed) && instance.hasList == old(instance.hasList)
    {
      if instance == null {
        return;
      }
      instance.deferredLights := instance.deferredLights + [light];
    }

    /** `RemoveLight`: remove the first occurrence; nothing happens without an
        instance. */
    method RemoveLight(light: DeferredLightsData)
      requires Valid()
      modifies instance
      ensures Valid()
      ensures old(instance) == null ==> unchanged(this)
      ensures old(instance) != null ==> instance.deferredLights == RemoveFirst(old(instance.deferredLights), light)
      ensures instance == old(instance)
      ensures old(instance) != null ==> instance.destroyed == old(instance.destroyed) && instance.hasList == old(instance.hasList)
    {
      if instance == null {
        return;
      }
      instance.deferredLights := RemoveFirst(instance.deferredLights, light);
    }

    /** `DeferredLightsData.OnEnable`. */
    method OnEnable(light: DeferredLightsData)
      requires Valid()
      modifies instance
      ensures Valid()
      ensures old(instance) == null ==> unchanged(this)
      ensures old(instance) != null ==> instance.deferredLights == Replay(old(instance.deferredLights), [Enabled(light)])
      ensures instance == old(instance)
      ensures old(instance) != null ==> instance.destroyed == old(instance.destroyed) && instance.hasList == old(instance.hasList)
    {
      AddLight(light);
    }

    /** `DeferredLightsData.OnDestroy`. */
    method OnDestroy(light: DeferredLightsData)
      requires Valid()
      modifies instance
      ensures Valid()
      ensures old(instance) == null ==> unchanged(this)
      ensures old(instance) != null ==> instance.deferredLights == Replay(old(instance.deferredLights), [Destroyed(light)])
      ensures instance == old(instance)
      ensures old(instance) != null ==> instance.destroyed == old(instance.destroyed) && instance.hasList == old(instance.hasList)
    {
      RemoveLight(light);
    }
  }

  /** The life-cycle callbacks a light receives. A light has no disable callback, so
      `Disabled` leaves the registry as it is. */
  datatype LightEvent<T> = Enabled(light: T) | Disabled(light: T) | Destroyed(light: T)

  /** The registered list after a series of callbacks, with a live instance. */
  function Replay<T(==)>(s: seq<T>, events: seq<LightEvent<T>>): seq<T>
    decreases |events|
  {
    if events == [] then s
    else
      var e := events[0];
      var s' := match e
        case Enabled(l) => s + [l]
        case Disabled(_) => s
        case Destroyed(l) => RemoveFirst(s, l);
      Replay(s', events[1..])
  }

  /** n enable/disable cycles of one light. */
  function Cycles<T>(l: T, n: nat): (events: seq<LightEvent<T>>)
    ensures |events| == 2 * n
    ensures forall i :: 0 <= i < |events| ==> events[i] == if i % 2 == 0 then Enabled(l) else Disabled(l)
  {
    if n == 0 then [] else [Enabled(l), Disabled(l)] + Cycles(l, n - 1)
  }

  /** Every enable/disable cycle registers the light once more: after n cycles it
      appears n more times, and no other light's multiplicity changes. */
  lemma {:induction false} CyclesAccumulate<T>(s: seq<T>, l: T, n: nat)
    ensures multiset(Replay(s, Cycles(l, n)))[l] == multiset(s)[l] + n
    ensures forall o :: o != l ==> multiset(Replay(s, Cycles(l, n)))[o] == multiset(s)[o]
    decreases n
  {
    if n > 0 {
      var evs := Cycles(l, n);
      assert evs[0] == Enabled(l);
      assert evs[1..][0] == Disabled(l);
      assert evs[1..][1..] == Cycles(l, n - 1);
      assert Replay(s, evs) == Replay(s + [l], evs[1..]);
      assert Replay(s + [l], evs[1..]) == Replay(s + [l], Cycles(l, n - 1));
      CyclesAccumulate(s + [l], l, n - 1);
      assert multiset(s + [l]) == multiset(s) + multiset{l};
    }
  }
}
