/**
 * Flattening the parsed Sh-Data document into the fourteen channel
 * variables. The document is the tree `xml2js` produces with
 * `explicitArray: false`: an element with children or attributes is an
 * object, a text-only element is a string (empty for an empty element),
 * and repeated sibling elements become an array.
 */
module ShData {
  import opened Wrappers

  datatype Node =
    | Leaf(text: string)
    | Object(children: map<string, Node>)
    | List(items: seq<Node>)

  /** `{}` */
  const EmptyObject: Node := Object(map[])

  /**
   * `node[key]` for the element names used here: an object's own child, and
   * undefined (None) otherwise. No key used here is an array index or a
   * string property such as `length`.
   */
  function Member(node: Node, key: string): Option<Node> {
    match node
    case Object(children) => if key in children then Some(children[key]) else None
    case _ => None
  }

  /** JavaScript truthiness of a looked-up value: undefined and '' are falsy. */
  predicate Truthy(v: Option<Node>) {
    match v
    case None => false
    case Some(Leaf(s)) => s != ""
    case Some(_) => true
  }

  /** `v || {}` */
  function OrEmpty(v: Option<Node>): Node {
    if Truthy(v) then v.value else EmptyObject
  }

  /**
   * How a template literal writes a node: a string as is, an object as
   * "[object Object]", an array as its items joined by ','.
   */
  function Text(n: Node): string
    decreases n, 1, 0
  {
    match n
    case Leaf(s) => s
    case Object(_) => "[object Object]"
    case List(items) => JoinItems(n, |items|)
  }

  /** The text of the first `k` items of an array node, joined by ','. */
  function JoinItems(n: Node, k: nat): string
    requires n.List? && k <= |n.items|
    decreases n, 0, k
  {
    if k == 0 then ""
    else if k == 1 then Text(n.items[0])
    else JoinItems(n, k - 1) + "," + Text(n.items[k - 1])
  }

  /**
   * Whether writing the node into a template literal succeeds. An object
   * that has its own child element named `toString` hides the inherited
   * method behind a non-callable value, so converting it to a string throws
   * a TypeError; an array throws when one of its items does.
   */
  predicate Renderable(n: Node) {
    match n
    case Leaf(_) => true
    case Object(children) => "toString" !in children
    case List(items) => forall i :: 0 <= i < |items| ==> Renderable(items[i])
  }

  /** `value || ''` */
  function OrBlank(v: Option<Node>): Node {
    if Truthy(v) then v.value else Leaf("")
  }

  /** The text a variable gets from `value || ''` written into a template. */
  function VarText(v: Option<Node>): string {
    Text(OrBlank(v))
  }

  /** The channel variables, in the order of the `vars` object literal. */
  const VarNames: seq<string> := [
    "SERVING_MME", "MSISDN", "SCSCF", "CF_ACTIVE", "CF_UNCONDITIONAL", "CF_NOREG", "CF_BUSY",
    "CF_NOANSWER", "CF_NOTREACHABLE", "CF_NOREPLYTIMER", "INBOUND_BARRED", "OUTBOUND_BARRED",
    "IMS_PUBLICIDENT", "IMS_PRIVATEIDENT"]

  /** Where a variable is read from: the element path to its parent, then its own element name. */
  datatype Source = Source(parent: seq<string>, key: string)

  const ShDataPath: seq<string> := ["Sh-Data"]
  const ImsDataPath: seq<string> := ["Sh-Data", "Sh-IMS-Data"]
  const EpsLocationPath: seq<string> := ["Sh-Data", "Extension", "EPSLocationInformation"]
  const PublicIdsPath: seq<string> := ["Sh-Data", "PublicIdentifiers"]

  /** The source of each variable, in the same order as VarNames. */
  const VarSources: seq<Source> := [
    Source(EpsLocationPath, "MMEName"),
    Source(PublicIdsPath, "MSISDN"),
    Source(ImsDataPath, "S-CSCFName"),
    Source(ImsDataPath, "CallForwardActive"),
    Source(ImsDataPath, "CallForwardUnconditional"),
    Source(ImsDataPath, "CallForwardNotRegistered"),
    Source(ImsDataPath, "CallForwardBusy"),
    Source(ImsDataPath, "CallForwardNoAnswer"),
    Source(ImsDataPath, "CallForwardNotReachable"),
    Source(ImsDataPath, "CallForwardNoReplyTimer"),
    Source(ImsDataPath, "InboundCommunicationBarred"),
    Source(ImsDataPath, "OutboundCommunicationBarred"),
    Source(PublicIdsPath, "IMSPublicIdentity"),
    Source(ShDataPath, "IMSPrivateUserIdentity")]

  /**
   * The `vars` object, as its ordered entries: the chain of `|| {}` lookups
   * for the intermediate elements and `|| ''` for each variable. The values
   * are still nodes: they become text only when the loop writes them.
   */
  function Flatten(parsed: Node): seq<(string, Node)> {
    var shData := OrEmpty(Member(parsed, "Sh-Data"));
    var imsData := OrEmpty(Member(shData, "Sh-IMS-Data"));
    var extenData := OrEmpty(Member(shData, "Extension"));
    var epsLocationInformation := OrEmpty(Member(extenData, "EPSLocationInformation"));
    var pubIds := OrEmpty(Member(shData, "PublicIdentifiers"));
    [ ("SERVING_MME", OrBlank(Member(epsLocationInformation, "MMEName"))),
      ("MSISDN", OrBlank(Member(pubIds, "MSISDN"))),
      ("SCSCF", OrBlank(Member(imsData, "S-CSCFName"))),
      ("CF_ACTIVE", OrBlank(Member(imsData, "CallForwardActive"))),
      ("CF_UNCONDITIONAL", OrBlank(Member(imsData, "CallForwardUnconditional"))),
      ("CF_NOREG", OrBlank(Member(imsData, "CallForwardNotRegistered"))),
      ("CF_BUSY", OrBlank(Member(imsData, "CallForwardBusy"))),
      ("CF_NOANSWER", OrBlank(Member(imsData, "CallForwardNoAnswer"))),
      ("CF_NOTREACHABLE", OrBlank(Member(imsData, "CallForwardNotReachable"))),
      ("CF_NOREPLYTIMER", OrBlank(Member(imsData, "CallForwardNoReplyTimer"))),
      ("INBOUND_BARRED", OrBlank(Member(imsData, "InboundCommunicationBarred"))),
      ("OUTBOUND_BARRED", OrBlank(Member(imsData, "OutboundCommunicationBarred"))),
      ("IMS_PUBLICIDENT", OrBlank(Member(pubIds, "IMSPublicIdentity"))),
      ("IMS_PRIVATEIDENT", OrBlank(Member(shData, "IMSPrivateUserIdentity"))) ]
  }

  // ---------------------------------------------------------------------------
  // The reference reading: one path walk per variable.

  /** The node reached by following `path`, every missing or empty step read as `{}`. */
  function Reach(n: Node, path: seq<string>): Node {
    if path == [] then n else OrEmpty(Member(Reach(n, path[..|path| - 1]), path[|path| - 1]))
  }

  /** The value of the variable read from `src`: the parent walked as Reach, the element looked up as is. */
  function SourceValue(n: Node, src: Source): Node {
    OrBlank(Member(Reach(n, src.parent), src.key))
  }

  /** The text of the variable read from `src`. */
  function SourceText(n: Node, src: Source): string {
    Text(SourceValue(n, src))
  }

  /** Once a walk has fallen back to `{}`, it stays there. */
  lemma {:induction false} ReachStaysEmpty(n: Node, path: seq<string>, j: nat)
    requires j <= |path| && Reach(n, path[..j]) == EmptyObject
    ensures Reach(n, path) == EmptyObject
    decreases |path| - j
  {
    if j == |path| {
      assert path[..j] == path;
    } else {
      assert path[..j + 1][..j] == path[..j];
      assert Reach(n, path[..j + 1]) == EmptyObject;
      ReachStaysEmpty(n, path, j + 1);
    }
  }

  /**
   * Missing segments read as '': when the element at any step of the
   * parent path is absent (or empty), the variable read from it is ''.
   */
  lemma MissingSegmentGivesEmpty(n: Node, src: Source, j: nat)
    requires j < |src.parent|
    requires !Truthy(Member(Reach(n, src.parent[..j]), src.parent[j]))
    ensures SourceValue(n, src) == Leaf("") && SourceText(n, src) == ""
  {
    var path := src.parent;
    assert path[..j + 1][..j] == path[..j];
    assert Reach(n, path[..j + 1]) == EmptyObject;
    ReachStaysEmpty(n, path, j + 1);
  }

  /** `shData`, `imsData`, `epsLocationInformation` and `pubIds` of Flatten. */
  function ShDataOf(parsed: Node): Node { OrEmpty(Member(parsed, "Sh-Data")) }
  function ImsDataOf(parsed: Node): Node { OrEmpty(Member(ShDataOf(parsed), "Sh-IMS-Data")) }
  function EpsLocationOf(parsed: Node): Node {
    OrEmpty(Member(OrEmpty(Member(ShDataOf(parsed), "Extension")), "EPSLocationInformation"))
  }
  function PublicIdsOf(parsed: Node): Node { OrEmpty(Member(ShDataOf(parsed), "PublicIdentifiers")) }

  /** The intermediate nodes of Flatten are the ones the path walks reach. */
  lemma SectionsReached(parsed: Node)
    ensures Reach(parsed, ShDataPath) == ShDataOf(parsed)
    ensures Reach(parsed, ImsDataPath) == ImsDataOf(parsed)
    ensures Reach(parsed, EpsLocationPath) == EpsLocationOf(parsed)
    ensures Reach(parsed, PublicIdsPath) == PublicIdsOf(parsed)
  {
    assert ShDataPath[..0] == [];
    assert ImsDataPath[..1] == ShDataPath;
    assert EpsLocationPath[..2][..1] == ShDataPath;
    assert PublicIdsPath[..1] == ShDataPath;
  }

  /** Each variable, read by walking its own source path, gets the value Flatten gives it. */
  lemma FlattenFollowsPaths(parsed: Node)
    ensures |Flatten(parsed)| == |VarNames| == |VarSources| == 14
    ensures forall i :: 0 <= i < 14 ==> Flatten(parsed)[i] == (VarNames[i], SourceValue(parsed, VarSources[i]))
  {
    SectionsReached(parsed);
  }

  /**
   * The document with only PublicIdentifiers/MSISDN gives that MSISDN and
   * '' for every other variable.
   */
  lemma OnlyMsisdnDocument()
    ensures Flatten(Object(map["Sh-Data" := Object(map["PublicIdentifiers" :=
              Object(map["MSISDN" := Leaf("3342012860")])])]))
         == [("SERVING_MME", Leaf("")), ("MSISDN", Leaf("3342012860")), ("SCSCF", Leaf("")),
             ("CF_ACTIVE", Leaf("")), ("CF_UNCONDITIONAL", Leaf("")), ("CF_NOREG", Leaf("")),
             ("CF_BUSY", Leaf("")), ("CF_NOANSWER", Leaf("")), ("CF_NOTREACHABLE", Leaf("")),
             ("CF_NOREPLYTIMER", Leaf("")), ("INBOUND_BARRED", Leaf("")), ("OUTBOUND_BARRED", Leaf("")),
             ("IMS_PUBLICIDENT", Leaf("")), ("IMS_PRIVATEIDENT", Leaf(""))]
  {
  }

  /**
   * Repeated sibling elements, parsed as an array, are written as their texts
   * joined by ','; the first occurrence is not singled out.
   */
  lemma RepeatedElementsJoined(items: seq<Node>)
    requires |items| >= 2
    ensures VarText(Some(List(items)))
         == VarText(Some(List(items[..|items| - 1]))) + "," + Text(items[|items| - 1])
  {
    var n, front := List(items), List(items[..|items| - 1]);
    assert front.items[..|items| - 1] == n.items[..|items| - 1];
    JoinItemsPrefix(n, front, |items| - 1);
    assert Text(front) == JoinItems(front, |items| - 1);
    assert Text(n) == JoinItems(n, |items| - 1) + "," + Text(items[|items| - 1]);
  }

  /** The join of the first `k` items depends only on those items. */
  lemma {:induction false} JoinItemsPrefix(n: Node, m: Node, k: nat)
    requires n.List? && m.List? && k <= |n.items| && k <= |m.items|
    requires n.items[..k] == m.items[..k]
    ensures JoinItems(n, k) == JoinItems(m, k)
    decreases k
  {
    if k > 1 {
      assert n.items[..k - 1] == n.items[..k][..k - 1];
      assert m.items[..k - 1] == m.items[..k][..k - 1];
      assert n.items[k - 1] == n.items[..k][k - 1];
      assert m.items[k - 1] == m.items[..k][k - 1];
      JoinItemsPrefix(n, m, k - 1);
    } else if k == 1 {
      assert n.items[0] == n.items[..k][0];
      assert m.items[0] == m.items[..k][0];
    }
  }

  /** Two parsed occurrences of one element give "first,second". */
  lemma TwoOccurrences(a: string, b: string)
    ensures VarText(Some(List([Leaf(a), Leaf(b)]))) == a + "," + b
  {
    RepeatedElementsJoined([Leaf(a), Leaf(b)]);
    var front := List([Leaf(a), Leaf(b)][..1]);
    assert front.items == [Leaf(a)];
    assert Text(front) == JoinItems(front, 1) == a;
  }
}
