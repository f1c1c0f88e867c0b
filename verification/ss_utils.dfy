/** The pure helpers of `lib/ss_utils.py`: slash-path lookup in a decoded
    JSON document (`xpath_get`) and the millisecond difference of two
    timestamps (`get_time_diff`). */
module SsUtils {
  import opened Wrappers
  import opened PyText

  /** A decoded JSON value as Python's `json.loads` returns it. `JNull` is
      Python's `None`, which is also what a missing `.get` key yields. */
  datatype Json =
    | JNull
    | JBool(b: bool)
    | JNum(n: int)
    | JStr(s: string)
    | JArr(items: seq<Json>)
    | JObj(fields: map<string, Json>)

  /** `d.get(key)` on a JSON object. */
  function Get(fields: map<string, Json>, key: string): Json
  {
    if key in fields then fields[key] else JNull
  }

  /** One step of the path walk. A segment that `int()` accepts indexes
      the current element (`elem[x]`), which works on lists and strings
      with Python's negative indices; any other segment is looked up with
      `elem.get(x)`, which works on objects only. `None` is a step that
      raises (an index out of range, a `KeyError` on an object, a
      `TypeError` or `AttributeError` on anything else). */
  function Step(elem: Json, seg: string): (r: Option<Json>)
    ensures elem.JNull? ==> r == None
  {
    match ParseInt(seg)
    case Some(i) =>
      (match elem
       case JArr(items) => PyIndex(items, i)
       case JStr(s) =>
         (match PyIndex(s, i)
          case Some(c) => Some(JStr([c]))
          case None => None)
       case _ => None)
    case None =>
      (match elem
       case JObj(fields) => Some(Get(fields, seg))
       case _ => None)
  }

  /** The segments of a path: leading and trailing `/` are stripped and the
      rest is split on `/`. */
  function Segments(path: string): (segs: seq<string>)
    ensures |segs| >= 1
    ensures forall seg :: seg in segs ==> '/' !in seg
  {
    SplitPiecesLackSeparator(StripChar(path, '/'), '/');
    Split(StripChar(path, '/'), '/')
  }

  /** The walk as it proceeds from `elem` through `segs`: every step that
      succeeds moves on; the first step that raises ends the walk, and the
      element reached before it is the result. */
  function WalkFrom(elem: Json, segs: seq<string>): Json
    decreases |segs|
  {
    if |segs| == 0 then elem
    else match Step(elem, segs[0])
      case None => elem
      case Some(next) => WalkFrom(next, segs[1..])
  }

  /** `xpath_get(mydict, path)`. */
  function XPathGet(doc: Json, path: string): Json
  {
    WalkFrom(doc, Segments(path))
  }

  /** The element reached by resolving every segment in turn, or `None`
      when some step raises: the independent reading of "the nested
      element at this path". */
  function Resolve(doc: Json, segs: seq<string>): Option<Json>
    decreases |segs|
  {
    if |segs| == 0 then Some(doc)
    else match Step(doc, segs[0])
      case None => None
      case Some(next) => Resolve(next, segs[1..])
  }

  /** `xpath_get` as written: a loop that reassigns `elem` one segment at a
      time and leaves the loop at the first step that raises. */
  method XPathGetLoop(doc: Json, path: string) returns (elem: Json)
    ensures elem == XPathGet(doc, path)
  {
    var segs := Segments(path);
    elem := doc;
    var i := 0;
    while i < |segs|
      invariant 0 <= i <= |segs|
      invariant WalkFrom(elem, segs[i..]) == XPathGet(doc, path)
    {
      var next := Step(elem, segs[i]);
      if next.None? {
        return;
      }
      assert segs[i..][1..] == segs[i + 1..];
      elem := next.value;
      i := i + 1;
    }
  }

  /** When every segment resolves, the walk returns the nested element. */
  lemma {:induction false} WalkFromResolved(doc: Json, segs: seq<string>)
    requires Resolve(doc, segs).Some?
    ensures WalkFrom(doc, segs) == Resolve(doc, segs).value
    decreases |segs|
  {
    if |segs| > 0 {
      WalkFromResolved(Step(doc, segs[0]).value, segs[1..]);
    }
  }

  /** When the first `k` segments resolve to `e` and segment `k` raises,
      the walk stops there and returns `e`, not `None`. */
  lemma {:induction false} WalkFromStopsAtFailure(doc: Json, segs: seq<string>, k: nat, e: Json)
    requires k < |segs|
    requires Resolve(doc, segs[..k]) == Some(e)
    requires Step(e, segs[k]) == None
    ensures WalkFrom(doc, segs) == e
    decreases k
  {
    if k == 0 {
      assert doc == e;
    } else {
      var next := Step(doc, segs[0]);
      assert segs[..k][0] == segs[0];
      assert segs[..k][1..] == segs[1..][..k - 1];
      WalkFromStopsAtFailure(next.value, segs[1..], k - 1, e);
    }
  }

  /** Once the current element is `None`, every further segment keeps the
      result `None`. */
  lemma WalkFromNull(segs: seq<string>)
    ensures WalkFrom(JNull, segs) == JNull
  {
  }

  /** A non-numeric key missing from an object yields `None`, whatever
      segments follow it. */
  lemma MissingKeyYieldsNull(fields: map<string, Json>, key: string, rest: seq<string>)
    requires ParseInt(key) == None && key !in fields
    ensures WalkFrom(JObj(fields), [key] + rest) == JNull
  {
    assert ([key] + rest)[1..] == rest;
    WalkFromNull(rest);
  }

  /** A path that is a single non-numeric key, with or without surrounding
      slashes, reads exactly what `mydict.get(key)` reads. */
  lemma SingleKeyIsGet(fields: map<string, Json>, key: string)
    requires ParseInt(key) == None && '/' !in key
    ensures XPathGet(JObj(fields), key) == Get(fields, key)
    ensures XPathGet(JObj(fields), "/" + key + "/") == Get(fields, key)
  {
    StripCharWithout(key, '/');
    SplitWithoutSeparator(key, '/');
    StripSlashes(key);
    assert Segments(key) == [key];
    assert Segments("/" + key + "/") == [key];
    assert Step(JObj(fields), key) == Some(Get(fields, key));
    assert [key][1..] == [];
  }

  lemma StripSlashes(key: string)
    requires '/' !in key
    ensures StripChar("/" + key + "/", '/') == key
  {
    var s := "/" + key + "/";
    assert s[1..] == key + "/";
    if |key| == 0 {
      assert StripChar(s[1..], '/') == StripChar("", '/');
    } else {
      assert (key + "/")[..|key|] == key;
      StripCharWithout(key, '/');
    }
  }

  /** The printed form of an integer is a path of one segment, read back
      as that integer. */
  lemma IntPath(i: int)
    ensures Segments(IntToString(i)) == [IntToString(i)]
    ensures ParseInt(IntToString(i)) == Some(i)
  {
    var p := IntToString(i);
    IntToStringNoSlash(i);
    StripCharWithout(p, '/');
    SplitWithoutSeparator(p, '/');
    ParseIntToString(i);
  }

  /** A numeric segment, negative ones included, indexes the element: a
      list or a string is indexed the Python way (a string yields the
      one-character string), and when the index is out of range, or the
      element is an object (whose keys are strings) or a scalar, the
      `elem[x]` raises and the element itself is the result. */
  lemma IndexSegment(e: Json, i: int)
    ensures e.JArr? ==> XPathGet(e, IntToString(i)) == (match PyIndex(e.items, i) case Some(x) => x case None => e)
    ensures e.JStr? ==> XPathGet(e, IntToString(i)) == (match PyIndex(e.s, i) case Some(c) => JStr([c]) case None => e)
    ensures !e.JArr? && !e.JStr? ==> XPathGet(e, IntToString(i)) == e
  {
    var p := IntToString(i);
    IntPath(i);
    assert [p][1..] == [];
    match Step(e, p)
    case Some(next) =>
      assert XPathGet(e, p) == WalkFrom(next, []);
    case None =>
  }

  /** `get_time_diff(t1, t2)` with timestamps as microseconds since a fixed
      epoch: the `microseconds` component of the `timedelta` `t2 - t1`
      (always in `0 .. 999999`, as Python normalises a `timedelta`) divided
      by 1000. Whole seconds and days of the difference are dropped. */
  function TimeDiffMs(t1: int, t2: int): (ms: int)
    ensures 0 <= ms <= 999
    ensures ms * 1000 <= (t2 - t1) % 1000000 < ms * 1000 + 1000
  {
    ((t2 - t1) % 1000000) / 1000
  }

  lemma ModShift(d: int, seconds: int)
    ensures (d + seconds * 1000000) % 1000000 == d % 1000000
  {
    var r := d % 1000000;
    var q := d / 1000000;
    assert d == q * 1000000 + r;
    var e := d + seconds * 1000000;
    assert e == (q + seconds) * 1000000 + r;
    assert 0 <= r < 1000000;
  }

  /** Adding whole seconds to the difference does not change the result. */
  lemma TimeDiffIgnoresSeconds(t1: int, t2: int, seconds: int)
    ensures TimeDiffMs(t1, t2 + seconds * 1000000) == TimeDiffMs(t1, t2)
  {
    ModShift(t2 - t1, seconds);
    assert t2 + seconds * 1000000 - t1 == (t2 - t1) + seconds * 1000000;
  }

  /** For a difference under one second the result is the true number of
      whole milliseconds. */
  lemma TimeDiffSubSecond(t1: int, t2: int)
    requires 0 <= t2 - t1 < 1000000
    ensures TimeDiffMs(t1, t2) == (t2 - t1) / 1000
  {
  }

  /** A clock that steps back by one microsecond reads as 999 ms. */
  lemma TimeDiffBackwards(t: int)
    ensures TimeDiffMs(t, t - 1) == 999
  {
  }
}
