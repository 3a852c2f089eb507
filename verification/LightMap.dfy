/**
 * The v1 id assignment (translate/lights.go LightsV1) and its inverse
 * (bridge/provider.go fetch): colour lights are numbered from 1 in list order. The TV
 * sees the number as a decimal string; here it is the number itself.
 */
module LightMap {
  datatype UUID = UUID(text: string)

  /** A light of the Pro: its id, whether it has colour, and the device that owns it. */
  datatype Light = Light(id: UUID, hasColor: bool, owner: UUID)

  /** The ids of the colour lights among the first `n`, in order. */
  function Colors(lights: seq<Light>, n: nat): (cs: seq<UUID>)
    requires n <= |lights|
    ensures |cs| <= n
  {
    if n == 0 then []
    else Colors(lights, n - 1) + (if lights[n - 1].hasColor then [lights[n - 1].id] else [])
  }

  /** The i-th id under number i + 1. */
  function Numbered(cs: seq<UUID>): (m: map<nat, UUID>)
    ensures forall i :: i in m <==> 1 <= i <= |cs|
    ensures forall i :: i in m ==> m[i] == cs[i - 1]
  {
    if cs == [] then map[] else Numbered(cs[..|cs| - 1])[|cs| := cs[|cs| - 1]]
  }

  /** The assignment of a whole list. */
  function Assigned(lights: seq<Light>): map<nat, UUID> {
    Numbered(Colors(lights, |lights|))
  }

  /** translate/lights.go LightsV1, for the id map. */
  method LightsV1(lights: seq<Light>) returns (v1ToUUID: map<nat, UUID>)
    ensures v1ToUUID == Assigned(lights)
  {
    v1ToUUID := map[];
    var id: nat := 0;
    var k := 0;
    while k < |lights|
      invariant 0 <= k <= |lights|
      invariant id == |Colors(lights, k)|
      invariant v1ToUUID == Numbered(Colors(lights, k))
    {
      if lights[k].hasColor {
        id := id + 1;
        v1ToUUID := v1ToUUID[id := lights[k].id];
      }
      k := k + 1;
    }
  }

  /** `inv` sends every id that occurs to a number it occurs under. */
  ghost predicate Inverts(m: map<nat, UUID>, inv: map<UUID, nat>) {
    && (forall u :: u in inv ==> inv[u] in m && m[inv[u]] == u)
    && (forall i :: i in m ==> m[i] in inv)
  }

  /** The inversion loop of fetch; the order in which the map is visited is not specified. */
  method Invert(m: map<nat, UUID>) returns (inv: map<UUID, nat>)
    ensures Inverts(m, inv)
  {
    inv := map[];
    var todo := m.Keys;
    while todo != {}
      invariant todo <= m.Keys
      invariant forall u :: u in inv ==> inv[u] in m && m[inv[u]] == u
      invariant forall i :: i in m && i !in todo ==> m[i] in inv
      decreases todo
    {
      var i :| i in todo;
      inv := inv[m[i] := i];
      todo := todo - {i};
    }
  }

  /** Light ids are unique on the Pro. */
  ghost predicate Distinct(lights: seq<Light>) {
    forall i, j :: 0 <= i < j < |lights| ==> lights[i].id != lights[j].id
  }

  lemma {:induction false} ColorsAreLights(lights: seq<Light>, n: nat, i: nat)
    requires n <= |lights| && i < |Colors(lights, n)|
    ensures exists k :: 0 <= k < n && lights[k].hasColor && lights[k].id == Colors(lights, n)[i]
  {
    if i < |Colors(lights, n - 1)| {
      ColorsAreLights(lights, n - 1, i);
    } else {
      assert lights[n - 1].hasColor;
    }
  }

  lemma {:induction false} ColorsDistinct(lights: seq<Light>, n: nat, i: nat, j: nat)
    requires Distinct(lights) && n <= |lights| && i < j < |Colors(lights, n)|
    ensures Colors(lights, n)[i] != Colors(lights, n)[j]
  {
    if j < |Colors(lights, n - 1)| {
      ColorsDistinct(lights, n - 1, i, j);
    } else {
      ColorsAreLights(lights, n - 1, i);
    }
  }

  /** The ids are exactly 1 to n, each stands for a colour light, and the maps undo each other. */
  lemma MutualInverses(lights: seq<Light>, inv: map<UUID, nat>)
    requires Distinct(lights) && Inverts(Assigned(lights), inv)
    ensures var m := Assigned(lights);
            && (forall i :: i in m <==> 1 <= i <= |Colors(lights, |lights|)|)
            && (forall i :: i in m ==> m[i] in inv && inv[m[i]] == i)
            && (forall u :: u in inv ==> inv[u] in m && m[inv[u]] == u)
  {
    var m, cs := Assigned(lights), Colors(lights, |lights|);
    forall i | i in m ensures inv[m[i]] == i {
      var j := inv[m[i]];
      if i < j {
        ColorsDistinct(lights, |lights|, i - 1, j - 1);
      } else if j < i {
        ColorsDistinct(lights, |lights|, j - 1, i - 1);
      }
    }
  }

  /** So the inverse does not depend on the order in which the map was visited. */
  lemma InverseIsUnique(lights: seq<Light>, inv: map<UUID, nat>, other: map<UUID, nat>)
    requires Distinct(lights) && Inverts(Assigned(lights), inv) && Inverts(Assigned(lights), other)
    ensures inv == other
  {
    MutualInverses(lights, inv);
    MutualInverses(lights, other);
  }

  lemma {:induction false} ColorsHold(lights: seq<Light>, n: nat, k: nat)
    requires k < n <= |lights| && lights[k].hasColor
    ensures lights[k].id in Colors(lights, n)
  {
    if k < n - 1 {
      ColorsHold(lights, n - 1, k);
    }
  }

  /** A light has a number exactly when it has colour. */
  lemma NumberedIffColor(lights: seq<Light>, inv: map<UUID, nat>, k: nat)
    requires Distinct(lights) && Inverts(Assigned(lights), inv) && k < |lights|
    ensures lights[k].id in inv <==> lights[k].hasColor
  {
    var cs := Colors(lights, |lights|);
    if lights[k].hasColor {
      ColorsHold(lights, |lights|, k);
      var i :| 0 <= i < |cs| && cs[i] == lights[k].id;
      assert Assigned(lights)[i + 1] == lights[k].id;
    } else if lights[k].id in inv {
      ColorsAreLights(lights, |lights|, inv[lights[k].id] - 1);
    }
  }

  /** The colour lights before light `k`. */
  function ColourBefore(lights: seq<Light>, k: nat): set<nat>
    requires k <= |lights|
  {
    set j: nat | j < k && lights[j].hasColor
  }

  lemma {:induction false} ColorsCount(lights: seq<Light>, n: nat)
    requires n <= |lights|
    ensures |Colors(lights, n)| == |ColourBefore(lights, n)|
  {
    if n > 0 {
      ColorsCount(lights, n - 1);
      assert ColourBefore(lights, n) == ColourBefore(lights, n - 1) + if lights[n - 1].hasColor then {n - 1} else {};
    } else {
      assert ColourBefore(lights, 0) == {};
    }
  }

  lemma {:induction false} ColorAt(lights: seq<Light>, n: nat, k: nat)
    requires k < n <= |lights| && lights[k].hasColor
    ensures |Colors(lights, k)| < |Colors(lights, n)| && Colors(lights, n)[|Colors(lights, k)|] == lights[k].id
  {
    if k < n - 1 {
      ColorAt(lights, n - 1, k);
    }
  }

  /** Numbers follow the list: a colour light's number is one more than the colour lights before it. */
  lemma NumbersFollowList(lights: seq<Light>, k: nat)
    requires k < |lights| && lights[k].hasColor
    ensures var number := |ColourBefore(lights, k)| + 1;
            number in Assigned(lights) && Assigned(lights)[number] == lights[k].id
  {
    ColorsCount(lights, k);
    ColorAt(lights, |lights|, k);
  }
}
