/**
  The ink builder: turns the `ink` argument of a start-recognition call
  (a map holding a `strokes` list, each stroke a map holding a `points` list,
  each point a map with `x`, `y` and `t`) into an ordered ink, or into no ink
  at all when anything in the payload is missing or has the wrong type.
 */
module InkBuilder {
  import opened Payload

  datatype Point = Point(x: real, y: real, t: int64)
  datatype Stroke = Stroke(points: seq<Point>)
  datatype Ink = Ink(strokes: seq<Stroke>)

  /** Converts every element with `f`; the whole conversion fails as soon as one element fails. */
  function AllOrNothing<A, B>(f: A -> Option<B>, s: seq<A>): Option<seq<B>>
  {
    if s == [] then Some([])
    else
      match f(s[0])
      case None => None
      case Some(b) =>
        match AllOrNothing(f, s[1..])
        case None => None
        case Some(bs) => Some([b] + bs)
  }

  /** One failing element makes the whole conversion fail: no partial result. */
  lemma {:induction false} AllOrNothingFails<A, B>(f: A -> Option<B>, s: seq<A>, i: nat)
    requires i < |s| && f(s[i]).None?
    ensures AllOrNothing(f, s) == None
  {
    if i > 0 {
      AllOrNothingFails(f, s[1..], i - 1);
    }
  }

  /** When every element converts, the result holds the converted elements in order. */
  lemma {:induction false} AllOrNothingSucceeds<A, B>(f: A -> Option<B>, s: seq<A>, r: seq<B>)
    requires |r| == |s|
    requires forall k :: 0 <= k < |s| ==> f(s[k]) == Some(r[k])
    ensures AllOrNothing(f, s) == Some(r)
  {
    if s != [] {
      AllOrNothingSucceeds(f, s[1..], r[1..]);
      assert r == [r[0]] + r[1..];
    }
  }

  /** A successful conversion has one result per element, each the conversion of that element. */
  lemma {:induction false} AllOrNothingPreserves<A, B>(f: A -> Option<B>, s: seq<A>)
    requires AllOrNothing(f, s).Some?
    ensures |AllOrNothing(f, s).value| == |s|
    ensures forall k :: 0 <= k < |s| ==> f(s[k]) == Some(AllOrNothing(f, s).value[k])
  {
    if s != [] {
      AllOrNothingPreserves(f, s[1..]);
      var r := AllOrNothing(f, s).value;
      assert r[1..] == AllOrNothing(f, s[1..]).value;
      forall k | 0 <= k < |s|
        ensures f(s[k]) == Some(r[k])
      {
        if k > 0 {
          assert s[k] == s[1..][k - 1];
        }
      }
    }
  }

  /** The timestamp `t`: a 32-bit Integer is widened to a long, a Long is taken as is. */
  function Timestamp(v: Value): Option<int64>
  {
    match v
    case VInt(i) => Some(i as int64)
    case VLong(l) => Some(l)
    case _ => None
  }

  /** One point map: `x` and `y` must be doubles and `t` an Integer or a Long. */
  function PointOf(v: Value): Option<Point>
  {
    match v
    case VMap(m) =>
      (match (Get(m, "x"), Get(m, "y"), Timestamp(Get(m, "t")))
       case (VDouble(x), VDouble(y), Some(t)) => Some(Point(x, y, t))
       case _ => None)
    case _ => None
  }

  /** One stroke map: its `points` list, every point converted. */
  function StrokeOf(v: Value): Option<Stroke>
  {
    match v
    case VMap(m) =>
      (match Get(m, "points")
       case VList(ps) =>
         (match AllOrNothing(PointOf, ps)
          case Some(points) => Some(Stroke(points))
          case None => None)
       case _ => None)
    case _ => None
  }

  /** The ink named by the `ink` argument, or None where the Java builder returns null. */
  function InkOf(args: map<string, Value>): Option<Ink>
  {
    match Get(args, "ink")
    case VMap(m) =>
      (match Get(m, "strokes")
       case VList(ss) =>
         (match AllOrNothing(StrokeOf, ss)
          case Some(strokes) => Some(Ink(strokes))
          case None => None)
       case _ => None)
    case _ => None
  }

  /** The builder itself: nested loops that append each point to its stroke and each stroke to the ink. */
  method BuildInkFromMethodCall(args: map<string, Value>) returns (ink: Option<Ink>)
    ensures ink == InkOf(args)
  {
    var inkMap := Get(args, "ink");
    if !inkMap.VMap? {
      return None;
    }
    var strokeList := Get(inkMap.entries, "strokes");
    if !strokeList.VList? {
      return None;
    }
    var strokes: seq<Stroke> := [];
    for i := 0 to |strokeList.items|
      invariant |strokes| == i
      invariant forall k :: 0 <= k < i ==> StrokeOf(strokeList.items[k]) == Some(strokes[k])
    {
      var strokeMap := strokeList.items[i];
      if !strokeMap.VMap? {
        AllOrNothingFails(StrokeOf, strokeList.items, i);
        return None;
      }
      var pointsList := Get(strokeMap.entries, "points");
      if !pointsList.VList? {
        AllOrNothingFails(StrokeOf, strokeList.items, i);
        return None;
      }
      var points: seq<Point> := [];
      for j := 0 to |pointsList.items|
        invariant |points| == j
        invariant forall k :: 0 <= k < j ==> PointOf(pointsList.items[k]) == Some(points[k])
      {
        var point := pointsList.items[j];
        var t: int64 := 0;
        var ok := point.VMap?;
        if ok {
          var t0 := Get(point.entries, "t");
          ok := Get(point.entries, "x").VDouble? && Get(point.entries, "y").VDouble? && (t0.VInt? || t0.VLong?);
          if t0.VInt? {
            t := t0.i as int64;
          } else if t0.VLong? {
            t := t0.l;
          }
        }
        if !ok {
          AllOrNothingFails(PointOf, pointsList.items, j);
          AllOrNothingFails(StrokeOf, strokeList.items, i);
          return None;
        }
        points := points + [Point(Get(point.entries, "x").d, Get(point.entries, "y").d, t)];
      }
      AllOrNothingSucceeds(PointOf, pointsList.items, points);
      strokes := strokes + [Stroke(points)];
    }
    AllOrNothingSucceeds(StrokeOf, strokeList.items, strokes);
    ink := Some(Ink(strokes));
  }

  // A declarative reading of "the payload is well formed", independent of the builder.

  predicate WellFormedPoint(v: Value)
  {
    && v.VMap?
    && Get(v.entries, "x").VDouble?
    && Get(v.entries, "y").VDouble?
    && (Get(v.entries, "t").VInt? || Get(v.entries, "t").VLong?)
  }

  predicate WellFormedStroke(v: Value)
  {
    && v.VMap?
    && Get(v.entries, "points").VList?
    && forall p :: p in Get(v.entries, "points").items ==> WellFormedPoint(p)
  }

  predicate WellFormedInk(args: map<string, Value>)
  {
    && Get(args, "ink").VMap?
    && Get(Get(args, "ink").entries, "strokes").VList?
    && forall s :: s in Get(Get(args, "ink").entries, "strokes").items ==> WellFormedStroke(s)
  }

  lemma PointOfIffWellFormed(v: Value)
    ensures PointOf(v).Some? <==> WellFormedPoint(v)
  {
  }

  lemma StrokeOfIffWellFormed(v: Value)
    ensures StrokeOf(v).Some? <==> WellFormedStroke(v)
  {
    if v.VMap? && Get(v.entries, "points").VList? {
      var ps := Get(v.entries, "points").items;
      if AllOrNothing(PointOf, ps).Some? {
        AllOrNothingPreserves(PointOf, ps);
        forall p | p in ps ensures WellFormedPoint(p) {
          var k :| 0 <= k < |ps| && ps[k] == p;
          PointOfIffWellFormed(p);
        }
      } else if WellFormedStroke(v) {
        forall k | 0 <= k < |ps| ensures PointOf(ps[k]).Some? {
          PointOfIffWellFormed(ps[k]);
        }
        var r := seq(|ps|, k requires 0 <= k < |ps| => PointOf(ps[k]).value);
        AllOrNothingSucceeds(PointOf, ps, r);
      }
    }
  }

  /** The build succeeds exactly when every stroke and every point in the payload is well formed. */
  lemma InkBuildsIffWellFormed(args: map<string, Value>)
    ensures InkOf(args).Some? <==> WellFormedInk(args)
  {
    var inkMap := Get(args, "ink");
    if inkMap.VMap? && Get(inkMap.entries, "strokes").VList? {
      var ss := Get(inkMap.entries, "strokes").items;
      if AllOrNothing(StrokeOf, ss).Some? {
        AllOrNothingPreserves(StrokeOf, ss);
        forall s | s in ss ensures WellFormedStroke(s) {
          var k :| 0 <= k < |ss| && ss[k] == s;
          StrokeOfIffWellFormed(s);
        }
      } else if WellFormedInk(args) {
        forall k | 0 <= k < |ss| ensures StrokeOf(ss[k]).Some? {
          StrokeOfIffWellFormed(ss[k]);
        }
        var r := seq(|ss|, k requires 0 <= k < |ss| => StrokeOf(ss[k]).value);
        AllOrNothingSucceeds(StrokeOf, ss, r);
      }
    }
  }

  /** The `strokes` list of the payload (empty when there is none). */
  function StrokeValues(args: map<string, Value>): seq<Value>
  {
    var inkMap := Get(args, "ink");
    if inkMap.VMap? && Get(inkMap.entries, "strokes").VList? then Get(inkMap.entries, "strokes").items else []
  }

  /** The `points` list of one stroke payload (empty when there is none). */
  function PointValues(stroke: Value): seq<Value>
  {
    if stroke.VMap? && Get(stroke.entries, "points").VList? then Get(stroke.entries, "points").items else []
  }

  /** A built ink has the payload's strokes, in order, each with the payload's points, in order. */
  lemma InkShapePreserved(args: map<string, Value>, ink: Ink)
    requires InkOf(args) == Some(ink)
    ensures |ink.strokes| == |StrokeValues(args)|
    ensures forall i :: 0 <= i < |ink.strokes| ==> |ink.strokes[i].points| == |PointValues(StrokeValues(args)[i])|
    ensures forall i, j :: 0 <= i < |ink.strokes| && 0 <= j < |ink.strokes[i].points| ==>
      PointOf(PointValues(StrokeValues(args)[i])[j]) == Some(ink.strokes[i].points[j])
  {
    var ss := StrokeValues(args);
    AllOrNothingPreserves(StrokeOf, ss);
    forall i | 0 <= i < |ink.strokes|
      ensures |ink.strokes[i].points| == |PointValues(ss[i])|
      ensures forall j :: 0 <= j < |ink.strokes[i].points| ==> PointOf(PointValues(ss[i])[j]) == Some(ink.strokes[i].points[j])
    {
      AllOrNothingPreserves(PointOf, PointValues(ss[i]));
    }
  }

  // The sending side: how a Dart ink reaches this builder. Integers that fit in
  // 32 bits travel as Integer, larger ones as Long.

  function EncodeTimestamp(t: int64): Value
  {
    if -0x8000_0000 <= t < 0x8000_0000 then VInt(t as int32) else VLong(t)
  }

  function EncodePoint(p: Point): Value
  {
    VMap(map["x" := VDouble(p.x), "y" := VDouble(p.y), "t" := EncodeTimestamp(p.t)])
  }

  function EncodeStroke(s: Stroke): Value
  {
    VMap(map["points" := VList(seq(|s.points|, k requires 0 <= k < |s.points| => EncodePoint(s.points[k])))])
  }

  function EncodeInk(ink: Ink): map<string, Value>
  {
    map["ink" := VMap(map["strokes" := VList(seq(|ink.strokes|, k requires 0 <= k < |ink.strokes| => EncodeStroke(ink.strokes[k])))])]
  }

  /** Either width of a timestamp normalises to the same long. */
  lemma TimestampNormalised(t: int64)
    ensures Timestamp(EncodeTimestamp(t)) == Some(t)
    ensures Timestamp(VLong(t)) == Some(t)
    ensures -0x8000_0000 <= t < 0x8000_0000 ==> Timestamp(VInt(t as int32)) == Some(t)
  {
  }

  /** A point whose `t` is neither an Integer nor a Long makes the whole ink fail. */
  lemma BadTimestampFailsInk(args: map<string, Value>, i: nat, j: nat)
    requires i < |StrokeValues(args)| && j < |PointValues(StrokeValues(args)[i])|
    requires
      var p := PointValues(StrokeValues(args)[i])[j];
      p.VMap? && !(Get(p.entries, "t").VInt? || Get(p.entries, "t").VLong?)
    ensures InkOf(args) == None
  {
    var ss := StrokeValues(args);
    AllOrNothingFails(PointOf, PointValues(ss[i]), j);
    AllOrNothingFails(StrokeOf, ss, i);
  }

  /** Building the payload that encodes an ink gives back exactly that ink. */
  lemma InkRoundTrip(ink: Ink)
    ensures InkOf(EncodeInk(ink)) == Some(ink)
  {
    var ss := seq(|ink.strokes|, k requires 0 <= k < |ink.strokes| => EncodeStroke(ink.strokes[k]));
    forall k | 0 <= k < |ss|
      ensures StrokeOf(ss[k]) == Some(ink.strokes[k])
    {
      var s := ink.strokes[k];
      var ps := seq(|s.points|, n requires 0 <= n < |s.points| => EncodePoint(s.points[n]));
      forall n | 0 <= n < |ps|
        ensures PointOf(ps[n]) == Some(s.points[n])
      {
        TimestampNormalised(s.points[n].t);
      }
      AllOrNothingSucceeds(PointOf, ps, s.points);
    }
    AllOrNothingSucceeds(StrokeOf, ss, ink.strokes);
  }
}
