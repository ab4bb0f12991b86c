/**
 * The JSON payload that a Step Functions execution carries from state to state,
 * and the two reference-path operations the workflow uses on it: selecting the
 * value at a path (InputPath, OutputPath and the `.$` parameters) and placing a
 * value at a path (ResultPath).
 */
module Json {
  import opened Wrappers

  /** A JSON value. Numbers are integers: every number the workflow reads is one. */
  datatype Json =
    | Null
    | Bool(b: bool)
    | Num(n: int)
    | Str(s: string)
    | Arr(items: seq<Json>)
    | Obj(fields: map<string, Json>)

  /** One step of a reference path: `.name` or `[index]`. */
  datatype Step = Key(name: string) | At(index: nat)

  /** A reference path, read from `$` onwards. */
  type Path = seq<Step>

  /** The value at path `p` inside `j`, or None when the path does not exist. */
  function Select(j: Json, p: Path): Option<Json>
    decreases |p|
  {
    if p == [] then Some(j)
    else match p[0]
      case Key(k) =>
        if j.Obj? && k in j.fields then Select(j.fields[k], p[1..]) else None
      case At(i) =>
        if j.Arr? && i < |j.items| then Select(j.items[i], p[1..]) else None
  }

  /**
   * ResultPath: `j` with `v` placed at path `p`. A missing object field on the way
   * is created; stepping into something that is not an object (for a key) or past
   * the end of an array (for an index) fails.
   */
  function Put(j: Json, p: Path, v: Json): Option<Json>
    decreases |p|
  {
    if p == [] then Some(v)
    else match p[0]
      case Key(k) =>
        if !j.Obj? then None
        else
          var child := if k in j.fields then j.fields[k] else Obj(map[]);
          (match Put(child, p[1..], v)
           case None => None
           case Some(c) => Some(Obj(j.fields[k := c])))
      case At(i) =>
        if !(j.Arr? && i < |j.items|) then None
        else
          (match Put(j.items[i], p[1..], v)
           case None => None
           case Some(c) => Some(Arr(j.items[i := c])))
  }

  /** After a successful Put, the path selects exactly the value put there. */
  lemma {:induction false} SelectAfterPut(j: Json, p: Path, v: Json)
    requires Put(j, p, v).Some?
    ensures Select(Put(j, p, v).value, p) == Some(v)
    decreases |p|
  {
    if p != [] {
      match p[0]
      case Key(k) =>
        var child := if k in j.fields then j.fields[k] else Obj(map[]);
        SelectAfterPut(child, p[1..], v);
      case At(i) =>
        SelectAfterPut(j.items[i], p[1..], v);
    }
  }
}
