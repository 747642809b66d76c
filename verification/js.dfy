/**
 JavaScript value semantics the storefront components rely on: optional string
 fields, the truthiness test behind `a || b`, and the two ways a possibly absent
 string is turned into text (a template literal and a JSX child).
 */
module Js {

  /** An optional field of a loosely-typed record: `None` stands for `undefined`/`null`. */
  datatype Option<+T> = None | Some(value: T)

  /** A string-valued field is truthy when it is present and not the empty string. */
  predicate Truthy(o: Option<string>) {
    o.Some? && o.value != ""
  }

  /** Index `i` holds the first truthy candidate. */
  ghost predicate FirstTruthyAt(cands: seq<Option<string>>, i: int) {
    && 0 <= i < |cands|
    && Truthy(cands[i])
    && forall j :: 0 <= j < i ==> !Truthy(cands[j])
  }

  /** The chain `c0 || c1 || ... || fallback`: the first truthy candidate, else the fallback. */
  function FirstTruthy(cands: seq<Option<string>>, fallback: string): (r: string)
    ensures (forall j :: 0 <= j < |cands| ==> !Truthy(cands[j])) ==> r == fallback
    ensures forall i :: FirstTruthyAt(cands, i) ==> r == cands[i].value
    ensures r == fallback || exists i :: 0 <= i < |cands| && Truthy(cands[i]) && r == cands[i].value
    ensures fallback != "" ==> r != ""
  {
    if |cands| == 0 then fallback
    else if Truthy(cands[0]) then cands[0].value
    else
      var rest := FirstTruthy(cands[1..], fallback);
      assert forall i :: FirstTruthyAt(cands, i) ==> FirstTruthyAt(cands[1..], i - 1);
      rest
  }

  /** `${o}` in a template literal: an absent value prints as "undefined". */
  function TemplateText(o: Option<string>): (r: string)
    ensures o.Some? ==> r == o.value
    ensures o.None? ==> r == "undefined"
  {
    match o
    case Some(s) => s
    case None => "undefined"
  }

  /** `{o}` as a JSX child: an absent value renders nothing. */
  function JsxText(o: Option<string>): (r: string)
    ensures o.Some? ==> r == o.value
    ensures o.None? ==> r == ""
  {
    match o
    case Some(s) => s
    case None => ""
  }
}
