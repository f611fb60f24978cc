/**
 * Folding a Diameter answer into the name -> value object the builders
 * resolve with. The source walks the answer's AVP list with `forEach` and
 * assigns `result[name] = value`, so a later AVP with the same name
 * overwrites an earlier one. Only the User-Data builder turns the value of
 * Sh-User-Data into text with `toString('utf-8')`.
 */
module ShAnswers {
  import opened Wrappers
  import opened Avp

  /** The answer AVP whose value the User-Data builder turns into text. */
  const ShUserData: string := "Sh-User-Data"

  /** Why folding a User-Data answer can reject. */
  datatype FoldError = UserDataNotText

  /** The object built by assigning every AVP in order: the specification of the fold. */
  function Folded(body: seq<Avp>): map<string, Value> {
    if body == [] then map[]
    else Folded(body[..|body| - 1])[body[|body| - 1].name := body[|body| - 1].value]
  }

  /** The names that occur in `body`. */
  function NameSet(body: seq<Avp>): set<string> {
    set i | 0 <= i < |body| :: body[i].name
  }

  /** The fold has one entry per name in the answer, and no other. */
  lemma {:induction false} FoldedKeys(body: seq<Avp>)
    ensures Folded(body).Keys == NameSet(body)
  {
    if body != [] {
      var front := body[..|body| - 1];
      FoldedKeys(front);
      assert NameSet(body) == NameSet(front) + {body[|body| - 1].name} by {
        forall k | k in NameSet(body) ensures k in NameSet(front) + {body[|body| - 1].name} {
          var i :| 0 <= i < |body| && body[i].name == k;
          if i < |body| - 1 { assert front[i] == body[i]; }
        }
        forall k | k in NameSet(front) ensures k in NameSet(body) {
          var i :| 0 <= i < |front| && front[i].name == k;
          assert body[i] == front[i];
        }
      }
    }
  }

  /** Last write wins: an AVP that no later AVP shares a name with gives the entry's value. */
  lemma {:induction false} FoldedLastWins(body: seq<Avp>, i: nat)
    requires i < |body|
    requires forall j :: i < j < |body| ==> body[j].name != body[i].name
    ensures body[i].name in Folded(body) && Folded(body)[body[i].name] == body[i].value
  {
    if i < |body| - 1 {
      var front := body[..|body| - 1];
      FoldedLastWins(front, i);
    }
  }

  /**
   * `avp[1].toString('utf-8')`: a Buffer is decoded as UTF-8 (`utf8`), a string
   * is returned as is, an array is joined; on `undefined` (a TypeError) and on a
   * number (a RangeError, as 'utf-8' is no radix) the call throws.
   */
  function ToText(v: Value, utf8: seq<bv8> -> string): Option<Value> {
    match v
    case Undefined => None
    case Int(_) => None
    case Str(s) => Some(Str(s))
    case Octets(b) => Some(Str(utf8(b)))
    case Grouped(avps) => Some(Str(GroupText(v, |avps|, utf8)))
  }

  /** The body with every Sh-User-Data value turned into text, or None if one of them throws. */
  function DecodeUserData(body: seq<Avp>, utf8: seq<bv8> -> string): Option<seq<Avp>> {
    if body == [] then Some([])
    else
      var last := body[|body| - 1];
      match DecodeUserData(body[..|body| - 1], utf8)
      case None => None
      case Some(front) =>
        if last.name != ShUserData then Some(front + [last])
        else match ToText(last.value, utf8)
          case None => None
          case Some(t) => Some(front + [Avp(last.name, t)])
  }

  /** The specification of the User-Data fold: the fold of the decoded body, or a rejection. */
  function FoldedUserData(body: seq<Avp>, utf8: seq<bv8> -> string): Result<map<string, Value>, FoldError> {
    match DecodeUserData(body, utf8)
    case Some(decoded) => Ok(Folded(decoded))
    case None => Err(UserDataNotText)
  }

  /** The User-Data fold rejects exactly when some Sh-User-Data value cannot be turned into text. */
  lemma {:induction false} FoldedUserDataRejects(body: seq<Avp>, utf8: seq<bv8> -> string)
    ensures FoldedUserData(body, utf8).Err? <==>
      exists i :: 0 <= i < |body| && body[i].name == ShUserData && ToText(body[i].value, utf8).None?
  {
    if body != [] {
      var front := body[..|body| - 1];
      FoldedUserDataRejects(front, utf8);
      if exists i :: 0 <= i < |front| && front[i].name == ShUserData && ToText(front[i].value, utf8).None? {
        var i :| 0 <= i < |front| && front[i].name == ShUserData && ToText(front[i].value, utf8).None?;
        assert body[i] == front[i];
      } else {
        forall i | 0 <= i < |body| - 1
          ensures !(body[i].name == ShUserData && ToText(body[i].value, utf8).None?)
        {
          assert body[i] == front[i];
        }
      }
    }
  }

  /**
   * The User-Data fold differs from the plain fold only in the entry for
   * Sh-User-Data, which holds the text of the last Sh-User-Data value.
   */
  lemma {:induction false} FoldedUserDataAgrees(body: seq<Avp>, utf8: seq<bv8> -> string)
    requires FoldedUserData(body, utf8).Ok?
    ensures var m := FoldedUserData(body, utf8).value;
      && m.Keys == Folded(body).Keys
      && (forall k :: k in m && k != ShUserData ==> m[k] == Folded(body)[k])
      && (ShUserData in m ==> ToText(Folded(body)[ShUserData], utf8) == Some(m[ShUserData]))
  {
    if body != [] {
      var front := body[..|body| - 1];
      assert DecodeUserData(front, utf8).Some?;
      FoldedUserDataAgrees(front, utf8);
    }
  }

  /** The fold `sendPURRequest` and `sendSNRRequest` run over an answer. */
  method FoldAnswer(body: seq<Avp>) returns (result: map<string, Value>)
    ensures result == Folded(body)
  {
    result := map[];
    var i := 0;
    while i < |body|
      invariant 0 <= i <= |body|
      invariant result == Folded(body[..i])
    {
      assert body[..i + 1][..i] == body[..i];
      result := result[body[i].name := body[i].value];
      i := i + 1;
    }
    assert body[..|body|] == body;
  }

  /** The fold `sendUDRRequest` runs over an answer; it rejects where `toString('utf-8')` throws. */
  method FoldUserDataAnswer(body: seq<Avp>, utf8: seq<bv8> -> string)
    returns (r: Result<map<string, Value>, FoldError>)
    ensures r == FoldedUserData(body, utf8)
  {
    var result := map[];
    var i := 0;
    while i < |body|
      invariant 0 <= i <= |body|
      invariant DecodeUserData(body[..i], utf8).Some?
      invariant result == Folded(DecodeUserData(body[..i], utf8).value)
    {
      var avp := body[i];
      assert body[..i + 1][..i] == body[..i];
      if avp.name == ShUserData {
        var text := ToText(avp.value, utf8);
        if text.None? {
          assert DecodeUserData(body[..i + 1], utf8).None?;
          DecodeStaysNone(body, i + 1, utf8);
          return Err(UserDataNotText);
        }
        result := result[ShUserData := text.value];
      } else {
        result := result[avp.name := avp.value];
      }
      i := i + 1;
    }
    assert body[..|body|] == body;
    r := Ok(result);
  }

  /** Once a prefix cannot be decoded, no longer prefix can. */
  lemma {:induction false} DecodeStaysNone(body: seq<Avp>, n: nat, utf8: seq<bv8> -> string)
    requires n <= |body| && DecodeUserData(body[..n], utf8).None?
    ensures DecodeUserData(body, utf8).None?
    decreases |body| - n
  {
    if n < |body| {
      assert body[..n + 1][..n] == body[..n];
      DecodeStaysNone(body, n + 1, utf8);
    } else {
      assert body[..n] == body;
    }
  }
}
