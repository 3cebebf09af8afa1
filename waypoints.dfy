/**
 * The route editor behind the map: a click places a waypoint of the currently selected
 * type, Start and End points replace any earlier point of their type, Checkpoints are
 * appended, and the selected type then advances; waypoints are removed by id.
 */
module Waypoints {
  import opened Dict
  import opened Types
  import Strings

  function TypeName(t: WaypointType): string {
    match t
    case Start => "start"
    case Checkpoint => "checkpoint"
    case End => "end"
  }

  /**
   * `${Type} ${waypoints.length + 1}`, e.g. "Checkpoint 3": the name reads back as the
   * capitalised type, one space, and the decimal number `count + 1` written without a
   * leading zero.
   */
  function WaypointName(t: WaypointType, count: nat): (r: string)
    ensures var caption := Strings.Capitalize(TypeName(t));
      && |r| > |caption| + 1
      && r[..|caption|] == caption
      && r[|caption|] == ' '
      && Strings.AllDigits(r[|caption| + 1..])
      && Strings.ParseNat(r[|caption| + 1..]) == count + 1
      && r[|caption| + 1] != '0'
  {
    var caption, digits := Strings.Capitalize(TypeName(t)), Strings.NatToString(count + 1);
    Strings.ParseNatToString(count + 1);
    NameParts(caption, digits);
    caption + " " + digits
  }

  lemma NameParts(caption: string, digits: string)
    ensures var name := caption + " " + digits;
      name[..|caption|] == caption && name[|caption|] == ' ' && name[|caption| + 1..] == digits
  {
    var name := caption + " " + digits;
    assert name[..|caption|] == caption;
    assert name[|caption| + 1..] == digits;
  }

  function CountType(ws: seq<Waypoint>, t: WaypointType): nat {
    if ws == [] then 0 else (if ws[0].wtype == t then 1 else 0) + CountType(ws[1..], t)
  }

  lemma {:induction false} CountTypeAppend(a: seq<Waypoint>, b: seq<Waypoint>, t: WaypointType)
    ensures CountType(a + b, t) == CountType(a, t) + CountType(b, t)
  {
    if a != [] {
      assert (a + b)[1..] == a[1..] + b;
      CountTypeAppend(a[1..], b, t);
    } else {
      assert a + b == b;
    }
  }

  /** `waypoints.find(wp => wp.type === t)` is truthy: exactly when the route counts a point of type `t`. */
  predicate HasType(ws: seq<Waypoint>, t: WaypointType): (r: bool)
    ensures r <==> CountType(ws, t) > 0
  {
    FoundIffCounted(ws, t);
    exists w :: w in ws && w.wtype == t
  }

  lemma {:induction false} FoundIffCounted(ws: seq<Waypoint>, t: WaypointType)
    ensures (exists w :: w in ws && w.wtype == t) <==> CountType(ws, t) > 0
  {
    if ws != [] {
      FoundIffCounted(ws[1..], t);
      if ws[0].wtype == t {
        assert ws[0] in ws;
      } else if exists w :: w in ws && w.wtype == t {
        var w :| w in ws && w.wtype == t;
        assert w in ws[1..];
      }
    }
  }

  /** The route invariant: at most one Start and at most one End. */
  predicate AtMostOneEndpoint(ws: seq<Waypoint>) {
    CountType(ws, Start) <= 1 && CountType(ws, End) <= 1
  }

  /** `prev.filter(wp => wp.type !== t)` */
  function WithoutType(ws: seq<Waypoint>, t: WaypointType): (r: seq<Waypoint>)
    ensures forall w :: w in r <==> w in ws && w.wtype != t
    ensures IsSubsequence(r, ws)
    ensures CountType(r, t) == 0
    ensures forall u :: u != t ==> CountType(r, u) == CountType(ws, u)
  {
    if ws == [] then []
    else if ws[0].wtype != t then [ws[0]] + WithoutType(ws[1..], t)
    else WithoutType(ws[1..], t)
  }

  /**
   * The waypoint a click creates: the click's id and position, the selected type, and a
   * name numbered by the route's length before the click (not by its place after eviction).
   */
  function NewWaypoint(ws: seq<Waypoint>, t: WaypointType, id: string, position: (real, real)): (w: Waypoint)
    ensures w.id == id && w.wtype == t && w.position == position
    ensures var caption := Strings.Capitalize(TypeName(t));
      && |w.name| > |caption| + 1 && w.name[..|caption|] == caption
      && Strings.AllDigits(w.name[|caption| + 1..]) && Strings.ParseNat(w.name[|caption| + 1..]) == |ws| + 1
    ensures w.name == WaypointName(t, |ws|)
  {
    Waypoint(id, t, position, WaypointName(t, |ws|))
  }

  /**
   * The route after a click: the new point goes last; a Start or End first evicts every
   * point of its type, leaving exactly one, while a Checkpoint leaves the route as it was;
   * the counts of the other types do not change.
   */
  function Place(ws: seq<Waypoint>, t: WaypointType, id: string, position: (real, real)): (r: seq<Waypoint>)
    ensures |r| > 0 && r[|r| - 1] == NewWaypoint(ws, t, id, position)
    ensures IsSubsequence(r[..|r| - 1], ws)
    ensures t == Checkpoint ==> r[..|r| - 1] == ws
    ensures t != Checkpoint ==> CountType(r, t) == 1 && forall w :: w in r[..|r| - 1] <==> w in ws && w.wtype != t
    ensures forall u :: u != t ==> CountType(r, u) == CountType(ws, u)
  {
    var w := NewWaypoint(ws, t, id, position);
    var kept := if t == Start || t == End then WithoutType(ws, t) else ws;
    AppendFacts(ws, kept, t, w);
    kept + [w]
  }

  lemma AppendFacts(ws: seq<Waypoint>, kept: seq<Waypoint>, t: WaypointType, w: Waypoint)
    requires kept == if t == Start || t == End then WithoutType(ws, t) else ws
    requires w.wtype == t
    ensures (kept + [w])[..|kept|] == kept
    ensures IsSubsequence(kept, ws)
    ensures CountType(kept + [w], t) == CountType(kept, t) + 1
    ensures forall u :: u != t ==> CountType(kept + [w], u) == CountType(ws, u)
  {
    CountTypeAppend(kept, [w], t);
    forall u | u != t
      ensures CountType(kept + [w], u) == CountType(ws, u)
    {
      CountTypeAppend(kept, [w], u);
    }
    if t == Checkpoint {
      SubsequenceOfItself(ws);
    }
  }

  lemma {:induction false} SubsequenceOfItself<T>(s: seq<T>)
    ensures IsSubsequence(s, s)
  {
    if s != [] {
      SubsequenceOfItself(s[1..]);
    }
  }

  lemma PlaceKeepsAtMostOneEndpoint(ws: seq<Waypoint>, t: WaypointType, id: string, position: (real, real))
    requires AtMostOneEndpoint(ws)
    ensures AtMostOneEndpoint(Place(ws, t, id, position))
  {
  }

  /**
   * The selected type after a click: it never becomes Start, and it only ever changes by
   * moving Start on to Checkpoint, or Checkpoint on to End while the route has no End.
   */
  function NextType(t: WaypointType, ws: seq<Waypoint>): (r: WaypointType)
    ensures r != Start
    ensures r != t ==> (t == Start && r == Checkpoint) || (t == Checkpoint && r == End && !HasType(ws, End))
  {
    if t == Start then Checkpoint
    else if t == Checkpoint && !HasType(ws, End) then End
    else t
  }

  /**
   * The auto-advance: Start moves on to Checkpoint, End stays End, a Checkpoint becomes End
   * exactly while the route had no End, and, once an End exists, Checkpoints keep being
   * placed, each of which leaves that End in the route.
   */
  lemma AutoAdvance(ws: seq<Waypoint>, t: WaypointType, id: string, position: (real, real))
    ensures NextType(t, ws) != Start
    ensures t == Start ==> NextType(t, ws) == Checkpoint
    ensures t == End ==> NextType(t, ws) == End
    ensures t == Checkpoint ==> (NextType(t, ws) == End <==> !HasType(ws, End))
    ensures t == Checkpoint && HasType(ws, End) ==>
      NextType(NextType(t, ws), Place(ws, t, id, position)) == Checkpoint && HasType(Place(ws, t, id, position), End)
  {
    if t == Checkpoint && HasType(ws, End) {
      var r := Place(ws, t, id, position);
      var w :| w in ws && w.wtype == End;
      assert r[..|r| - 1] == ws;
      assert w in r[..|r| - 1];
      assert w in r;
    }
  }

  function CountId(ws: seq<Waypoint>, id: string): nat {
    if ws == [] then 0 else (if ws[0].id == id then 1 else 0) + CountId(ws[1..], id)
  }

  /** `prev.filter(wp => wp.id !== id)`: exactly the waypoints with another id, in their order. */
  function RemoveById(ws: seq<Waypoint>, id: string): (r: seq<Waypoint>)
    ensures forall w :: w in r <==> w in ws && w.id != id
    ensures IsSubsequence(r, ws)
    ensures |r| == |ws| - CountId(ws, id)
    ensures forall t :: CountType(r, t) <= CountType(ws, t)
  {
    if ws == [] then []
    else if ws[0].id != id then [ws[0]] + RemoveById(ws[1..], id)
    else RemoveById(ws[1..], id)
  }

  lemma RemoveKeepsAtMostOneEndpoint(ws: seq<Waypoint>, id: string)
    requires AtMostOneEndpoint(ws)
    ensures AtMostOneEndpoint(RemoveById(ws, id))
  {
  }
}
