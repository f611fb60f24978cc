/**
 * The attribute-value pairs (AVPs) the bridge hands to the Diameter library.
 * In the source an AVP is a two-element array `[name, value]`; a grouped AVP's
 * value is itself an array of such pairs.
 */
module Avp {
  import opened Wrappers
  import opened JsText

  /** The JavaScript values an AVP can carry. */
  datatype Value =
    | Undefined                   // a missing option property
    | Int(n: int)                 // a number
    | Str(s: string)              // a string
    | Octets(bytes: seq<bv8>)     // a Buffer
    | Grouped(avps: seq<Avp>)     // an array of nested pairs

  datatype Avp = Avp(name: string, value: Value)

  /** The names of `avps`, in order. */
  function Names(avps: seq<Avp>): seq<string> {
    seq(|avps|, i requires 0 <= i < |avps| => avps[i].name)
  }

  /** The position of the first AVP named `name`. */
  function IndexOf(avps: seq<Avp>, name: string): (r: Option<nat>)
    ensures r.Some? ==> r.value < |avps|
  {
    if avps == [] then None
    else if avps[0].name == name then Some(0)
    else match IndexOf(avps[1..], name)
      case None => None
      case Some(i) => Some(i + 1)
  }

  /** IndexOf finds the first AVP with the name, and None exactly when no AVP has it. */
  lemma {:induction false} IndexOfFirst(avps: seq<Avp>, name: string)
    ensures IndexOf(avps, name).None? <==> forall j :: 0 <= j < |avps| ==> avps[j].name != name
    ensures match IndexOf(avps, name)
      case Some(i) => i < |avps| && avps[i].name == name && forall j :: 0 <= j < i ==> avps[j].name != name
      case None => true
  {
    if avps != [] && avps[0].name != name {
      IndexOfFirst(avps[1..], name);
      assert forall j :: 1 <= j < |avps| ==> avps[j] == avps[1..][j - 1];
    }
  }

  /** The value of the first AVP named `name`, as a peer reading the message finds it. */
  function Find(avps: seq<Avp>, name: string): Option<Value> {
    match IndexOf(avps, name)
    case Some(i) => Some(avps[i].value)
    case None => None
  }

  /** An AVP that no earlier AVP shares a name with is the one Find returns. */
  lemma FindAt(avps: seq<Avp>, name: string, i: nat)
    requires i < |avps| && avps[i].name == name
    requires forall j :: 0 <= j < i ==> avps[j].name != name
    ensures IndexOf(avps, name) == Some(i)
    ensures Find(avps, name) == Some(avps[i].value)
  {
    IndexOfFirst(avps, name);
  }

  /** Find reports absence exactly when no AVP has the name. */
  lemma FindAbsent(avps: seq<Avp>, name: string)
    requires forall j :: 0 <= j < |avps| ==> avps[j].name != name
    ensures IndexOf(avps, name).None? && Find(avps, name).None?
  {
  }

  /**
   * How `Array.prototype.join` writes one element: `undefined` as nothing,
   * numbers in decimal, Buffers decoded as UTF-8 (`utf8`), nested arrays joined.
   */
  function ElementText(v: Value, utf8: seq<bv8> -> string): string
    decreases v, 1, 0
  {
    match v
    case Undefined => ""
    case Int(n) => IntText(n)
    case Str(s) => s
    case Octets(b) => utf8(b)
    case Grouped(avps) => GroupText(v, |avps|, utf8)
  }

  /** The text of the first `k` pairs of a grouped value, each pair written "name,value", joined by ','. */
  function GroupText(v: Value, k: nat, utf8: seq<bv8> -> string): string
    requires v.Grouped? && k <= |v.avps|
    decreases v, 0, k
  {
    if k == 0 then ""
    else
      var a := v.avps[k - 1];
      var pair := a.name + "," + ElementText(a.value, utf8);
      if k == 1 then pair else GroupText(v, k - 1, utf8) + "," + pair
  }
}
