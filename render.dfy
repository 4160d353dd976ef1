/**
 * `renderBody` of internal/alert/engine.go. The body is the concatenation of
 * the lines it writes in a fixed order; each line is a piece with a kind and
 * the variable part it shows, and `Render` gives its bytes. `Shown` and
 * `Count` state what a body shows under one kind. `BodyText` is the same text
 * grouped as the builder writes it, section by section, and `BodyIsText`
 * proves the two agree; `RenderBody` is the builder itself.
 */
module Render {
  import opened Wrappers
  import opened Bytes
  import opened Rules
  import opened Query

  datatype Kind =
    | Banner | Description | Overview | RuleName | Severity | FiredAt | IndexName | TimeWindow
    | HitCount | ThresholdLine | QueryLine
    | TargetHeading | Node | Namespace | Pod | Image | LogTime
    | LogHeading | Message | TruncationNote | MessageEnd | Link

  datatype Piece = Piece(kind: Kind, value: Bytes)

  /*
   * The fixed texts of the body, as the UTF-8 bytes of the Chinese labels the builder writes:
   * the banner, the overview heading, one "- **label：** " prefix per line, the target and
   * log headings, the truncation note and the link label.
   */
  const BannerText: Bytes := [240, 159, 154, 168, 32, 42, 42, 69, 108, 97, 115, 116, 105, 99, 115, 101, 97, 114, 99, 104, 32, 230, 151, 165, 229, 191, 151, 229, 145, 138, 232, 173, 166, 42, 42, 10, 10]
  const OverviewText: Bytes := [240, 159, 147, 138, 32, 42, 42, 229, 145, 138, 232, 173, 166, 230, 166, 130, 232, 167, 136, 42, 42, 10]
  const RuleNameLabel: Bytes := [45, 32, 42, 42, 232, 167, 132, 229, 136, 153, 229, 144, 141, 231, 167, 176, 239, 188, 154, 42, 42, 32]
  const SeverityLabel: Bytes := [45, 32, 42, 42, 229, 145, 138, 232, 173, 166, 231, 186, 167, 229, 136, 171, 239, 188, 154, 42, 42, 32]
  const FiredAtLabel: Bytes := [45, 32, 42, 42, 232, 167, 166, 229, 143, 145, 230, 151, 182, 233, 151, 180, 239, 188, 154, 42, 42, 32]
  const IndexLabel: Bytes := [45, 32, 42, 42, 231, 180, 162, 229, 188, 149, 239, 188, 154, 42, 42, 32]
  const WindowLabel: Bytes := [45, 32, 42, 42, 230, 151, 182, 233, 151, 180, 231, 170, 151, 239, 188, 154, 42, 42, 32]
  const HitCountLabel: Bytes := [45, 32, 42, 42, 229, 145, 189, 228, 184, 173, 230, 157, 161, 230, 149, 176, 239, 188, 154, 42, 42, 32]
  const ThresholdLabel: Bytes := [45, 32, 42, 42, 233, 152, 136, 229, 128, 188, 239, 188, 154, 42, 42, 32, 62, 32]
  const ThresholdUnit: Bytes := [32, 230, 157, 161]
  const QueryLabel: Bytes := [45, 32, 42, 42, 230, 159, 165, 232, 175, 162, 239, 188, 154, 42, 42, 32]
  const TargetText: Bytes := [10, 240, 159, 147, 140, 32, 42, 42, 230, 156, 172, 230, 172, 161, 229, 145, 138, 232, 173, 166, 231, 155, 174, 230, 160, 135, 42, 42, 10]
  const NodeLabel: Bytes := [45, 32, 42, 42, 232, 138, 130, 231, 130, 185, 229, 144, 141, 231, 167, 176, 239, 188, 154, 42, 42, 32]
  const NamespaceLabel: Bytes := [45, 32, 42, 42, 229, 145, 189, 229, 144, 141, 231, 169, 186, 233, 151, 180, 239, 188, 154, 42, 42, 32]
  const PodLabel: Bytes := [45, 32, 42, 42, 80, 111, 100, 32, 229, 144, 141, 231, 167, 176, 239, 188, 154, 42, 42, 32]
  const ImageLabel: Bytes := [45, 32, 42, 42, 80, 111, 100, 32, 233, 149, 156, 229, 131, 143, 239, 188, 154, 42, 42, 32]
  const LogTimeLabel: Bytes := [45, 32, 42, 42, 230, 151, 165, 229, 191, 151, 230, 151, 182, 233, 151, 180, 239, 188, 154, 42, 42, 32]
  const LogText: Bytes := [10, 240, 159, 167, 190, 32, 42, 42, 233, 148, 153, 232, 175, 175, 230, 151, 165, 229, 191, 151, 42, 42, 10]
  const TruncationText: Bytes := [10, 46, 46, 46, 40, 230, 151, 165, 229, 191, 151, 229, 134, 133, 229, 174, 185, 232, 190, 131, 233, 149, 191, 239, 188, 140, 229, 183, 178, 230, 136, 170, 230, 150, 173, 230, 152, 190, 231, 164, 186, 41]
  const LinkLabel: Bytes := [10, 240, 159, 148, 151, 32, 42, 42, 232, 175, 166, 231, 187, 134, 230, 151, 165, 229, 191, 151, 233, 147, 190, 230, 142, 165, 239, 188, 154, 42, 42, 32]
  const NewLine: Bytes := [10]

  const DefaultSeverity: Bytes := [77, 101, 100, 105, 117, 109]  // "Medium"
  const DslMarker: Bytes := [68, 83, 76]  // "DSL"
  const MaxMessageBytes := 800
  const Ellipsis: Bytes := [46, 46, 46]  // "..."

  const HostKey: Bytes := [107, 117, 98, 101, 114, 110, 101, 116, 101, 115, 95, 104, 111, 115, 116]  // "kubernetes_host"
  const NamespaceKey: Bytes := [107, 117, 98, 101, 114, 110, 101, 116, 101, 115, 95, 110, 97, 109, 101, 115, 112, 97, 99, 101, 95, 110, 97, 109, 101]  // "kubernetes_namespace_name"
  const PodKey: Bytes := [107, 117, 98, 101, 114, 110, 101, 116, 101, 115, 95, 112, 111, 100, 95, 110, 97, 109, 101]  // "kubernetes_pod_name"
  const ImageKey: Bytes := [107, 117, 98, 101, 114, 110, 101, 116, 101, 115, 95, 99, 111, 110, 116, 97, 105, 110, 101, 114, 95, 105, 109, 97, 103, 101]  // "kubernetes_container_image"
  const Slash: Bytes := [47]  // "/"
  const DocPath: Bytes := [47, 95, 100, 111, 99, 47]  // "/_doc/"
  const PrettyQuery: Bytes := [63, 112, 114, 101, 116, 116, 121]  // "?pretty"
  const MessageKey: Bytes := [109, 101, 115, 115, 97, 103, 101]  // "message"

  /** The label of a line of the form "label, value, newline". */
  function LabelOf(k: Kind): Bytes
  {
    match k
    case RuleName => RuleNameLabel
    case Severity => SeverityLabel
    case FiredAt => FiredAtLabel
    case IndexName => IndexLabel
    case TimeWindow => WindowLabel
    case HitCount => HitCountLabel
    case QueryLine => QueryLabel
    case Node => NodeLabel
    case Namespace => NamespaceLabel
    case Pod => PodLabel
    case Image => ImageLabel
    case LogTime => LogTimeLabel
    case _ => LinkLabel
  }

  /** The bytes the builder writes for one piece. */
  function Render(p: Piece): Bytes
  {
    match p.kind
    case Banner => BannerText
    case Description => p.value + NewLine + NewLine
    case Overview => OverviewText
    case ThresholdLine => ThresholdLabel + p.value + ThresholdUnit + NewLine
    case TargetHeading => TargetText
    case LogHeading => LogText
    case Message => p.value
    case TruncationNote => TruncationText
    case MessageEnd => NewLine
    case _ => LabelOf(p.kind) + p.value + NewLine
  }

  /** The body the pieces make, in order. */
  function Flatten(ps: seq<Piece>): Bytes
  {
    if ps == [] then [] else Render(ps[0]) + Flatten(ps[1..])
  }

  /** How many lines of kind `k` the pieces hold. */
  function Count(ps: seq<Piece>, k: Kind): nat
  {
    if ps == [] then 0 else Count(ps[..|ps| - 1], k) + (if ps[|ps| - 1].kind == k then 1 else 0)
  }

  /** The value shown on the (last) line of kind `k`, if there is one. */
  function Shown(ps: seq<Piece>, k: Kind): Option<Bytes>
  {
    if ps == [] then None
    else if ps[|ps| - 1].kind == k then Some(ps[|ps| - 1].value)
    else Shown(ps[..|ps| - 1], k)
  }

  lemma {:induction false} CountShownConcat(a: seq<Piece>, b: seq<Piece>, k: Kind)
    ensures Count(a + b, k) == Count(a, k) + Count(b, k)
    ensures Shown(a + b, k) == if Shown(b, k).Some? then Shown(b, k) else Shown(a, k)
  {
    if b == [] {
      assert a + b == a;
    } else {
      assert (a + b)[..|a + b| - 1] == a + b[..|b| - 1];
      CountShownConcat(a, b[..|b| - 1], k);
    }
  }

  lemma CountShownSingle(p: Piece, k: Kind)
    ensures Count([p], k) == if p.kind == k then 1 else 0
    ensures Shown([p], k) == if p.kind == k then Some(p.value) else None
  {
    assert [p][..0] == [];
  }

  /** `doc[key].(string)` with the comma-ok form: the empty string when absent or not a string. */
  function StrField(doc: Doc, key: Bytes): (v: Bytes)
    ensures v != [] ==> key in doc && doc[key] == Str(v)
    ensures key in doc && doc[key].Str? ==> v == doc[key].s
    ensures !(key in doc && doc[key].Str?) ==> v == []
  {
    if key in doc && doc[key].Str? then doc[key].s else []
  }

  /** A message longer than 800 bytes is cut to its first 800 bytes followed by "...". */
  function Truncate(msg: Bytes): (t: Bytes)
    ensures |msg| <= MaxMessageBytes ==> t == msg
    ensures |msg| > MaxMessageBytes ==> t == msg[..MaxMessageBytes] + Ellipsis && |t| == MaxMessageBytes + 3
    ensures t == [] <==> msg == []
  {
    if |msg| > MaxMessageBytes then msg[..MaxMessageBytes] + Ellipsis else msg
  }

  /** The link to the document through the backend's `_doc` API; index and id are not escaped. */
  function DetailUrl(address: Bytes, index: Bytes, id: Bytes): (u: Bytes)
    ensures var base := TrimTrailingSlashes(address);
      && |u| > |base| && u[..|base|] == base && u[|base|..|base| + 1] == Slash
      && (base == [] || base[|base| - 1] != '/' as int)
  {
    TrimTrailingSlashes(address) + Slash + index + DocPath + id + PrettyQuery
  }

  function SeverityOf(r: Rule): (s: Bytes)
    ensures s != []
    ensures r.severity != [] ==> s == r.severity
    ensures r.severity == [] ==> s == DefaultSeverity
  {
    if r.severity == [] then DefaultSeverity else r.severity
  }

  /** Everything the body is rendered from; `firedAt` is the formatted wall-clock time. */
  datatype BodyInput = BodyInput(rule: Rule, count: int, samples: seq<Doc>, addresses: seq<Bytes>, firedAt: Bytes)

  /** The first sample, whose fields the target lines show. */
  function Sample(b: BodyInput): Doc
  {
    if b.samples == [] then map[] else b.samples[0]
  }

  /** Present when `cond` holds, with value `v`. */
  function If(cond: bool, v: Bytes): Option<Bytes>
  {
    if cond then Some(v) else None
  }

  /** A target line: written only when there is a sample and its field is a non-empty string. */
  function TargetField(b: BodyInput, key: Bytes): Option<Bytes>
  {
    If(b.samples != [] && StrField(Sample(b), key) != [], StrField(Sample(b), key))
  }

  /** The value on the line of kind `k`, or `None` when the builder does not write that line. */
  function Line(b: BodyInput, k: Kind): Option<Bytes>
  {
    match k
    case Banner => Some([])
    case Description => If(b.rule.description != [], b.rule.description)
    case Overview => Some([])
    case RuleName => Some(b.rule.name)
    case Severity => Some(SeverityOf(b.rule))
    case FiredAt => Some(b.firedAt)
    case IndexName => Some(b.rule.index)
    case TimeWindow => Some(b.rule.timeWindow)
    case HitCount => Some(Decimal(b.count))
    case ThresholdLine =>
      (match b.rule.threshold.countGt
       case Some(limit) => Some(Decimal(limit))
       case None => None)
    case QueryLine =>
      if b.rule.queryString != [] then Some(b.rule.queryString) else If(b.rule.dsl.Some?, DslMarker)
    case TargetHeading => If(b.samples != [], [])
    case Node => TargetField(b, HostKey)
    case Namespace => TargetField(b, NamespaceKey)
    case Pod => TargetField(b, PodKey)
    case Image => TargetField(b, ImageKey)
    case LogTime => TargetField(b, TimestampField)
    case LogHeading => If(b.samples != [] && MessageOf(b) != [], [])
    case Message => If(b.samples != [] && MessageOf(b) != [], Truncate(MessageOf(b)))
    case TruncationNote => If(b.samples != [] && |MessageOf(b)| > MaxMessageBytes, [])
    case MessageEnd => If(b.samples != [] && MessageOf(b) != [], [])
    case Link => LinkOf(b)
  }

  /** The first sample's message, before truncation. */
  function MessageOf(b: BodyInput): Bytes
  {
    StrField(Sample(b), MessageKey)
  }

  /** The detail link, when the sample has an index and an id and there is an address. */
  function LinkOf(b: BodyInput): Option<Bytes>
  {
    var index, id := StrField(Sample(b), IndexKey), StrField(Sample(b), IdKey);
    If(b.samples != [] && index != [] && id != [] && |b.addresses| > 0,
       DetailUrl(if b.addresses == [] then [] else b.addresses[0], index, id))
  }

  /** An order of lines: the first line, then the rest. */
  datatype Order = Done | Next(first: Kind, rest: Order)

  predicate Mem(k: Kind, o: Order)
  {
    o.Next? && (o.first == k || Mem(k, o.rest))
  }

  predicate Distinct(o: Order)
  {
    o.Next? ==> !Mem(o.first, o.rest) && Distinct(o.rest)
  }

  /** Where line `k` comes in the body. */
  function Position(k: Kind): (i: nat)
    ensures i < KindCount
  {
    match k
    case Banner => 0
    case Description => 1
    case Overview => 2
    case RuleName => 3
    case Severity => 4
    case FiredAt => 5
    case IndexName => 6
    case TimeWindow => 7
    case HitCount => 8
    case ThresholdLine => 9
    case QueryLine => 10
    case TargetHeading => 11
    case Node => 12
    case Namespace => 13
    case Pod => 14
    case Image => 15
    case LogTime => 16
    case LogHeading => 17
    case Message => 18
    case TruncationNote => 19
    case MessageEnd => 20
    case Link => 21
  }

  const KindCount := 22

  /** The kind of line written at position `i`. */
  function KindAt(i: nat): (k: Kind)
    requires i < KindCount
    ensures Position(k) == i
  {
    match i
    case 0 => Banner
    case 1 => Description
    case 2 => Overview
    case 3 => RuleName
    case 4 => Severity
    case 5 => FiredAt
    case 6 => IndexName
    case 7 => TimeWindow
    case 8 => HitCount
    case 9 => ThresholdLine
    case 10 => QueryLine
    case 11 => TargetHeading
    case 12 => Node
    case 13 => Namespace
    case 14 => Pod
    case 15 => Image
    case 16 => LogTime
    case 17 => LogHeading
    case 18 => Message
    case 19 => TruncationNote
    case 20 => MessageEnd
    case _ => Link
  }

  /** The lines from position `i` on, in the order the builder writes them. */
  function OrderFrom(i: nat): Order
    decreases KindCount - i
  {
    if i < KindCount then Next(KindAt(i), OrderFrom(i + 1)) else Done
  }

  /** The order of all the lines of the body. */
  function BodyOrder(): Order
  {
    OrderFrom(0)
  }

  /** `KindAt` undoes `Position`: no two kinds share a position. */
  lemma KindAtPosition(k: Kind)
    ensures KindAt(Position(k)) == k
  {
    match k
    case Banner =>
    case Description =>
    case Overview =>
    case RuleName =>
    case Severity =>
    case FiredAt =>
    case IndexName =>
    case TimeWindow =>
    case HitCount =>
    case ThresholdLine =>
    case QueryLine =>
    case TargetHeading =>
    case Node =>
    case Namespace =>
    case Pod =>
    case Image =>
    case LogTime =>
    case LogHeading =>
    case Message =>
    case TruncationNote =>
    case MessageEnd =>
    case Link =>
  }

  /** The lines from position `i` on are the kinds whose position is at least `i`, each once. */
  lemma {:induction false} OrderFromShape(i: nat, k: Kind)
    ensures Mem(k, OrderFrom(i)) <==> i <= Position(k)
    ensures Distinct(OrderFrom(i))
    decreases KindCount - i
  {
    if i < KindCount {
      OrderFromShape(i + 1, k);
      OrderFromShape(i + 1, KindAt(i));
      KindAtPosition(k);
    }
  }

  /** Every kind of line has its place in the body, and no kind comes twice. */
  lemma BodyOrderComplete(k: Kind)
    ensures Mem(k, BodyOrder()) && Distinct(BodyOrder())
  {
    OrderFromShape(0, k);
  }

  /** Which lines are written, and with what value: `Line` for one input. */
  type LineTable = Kind -> Option<Bytes>

  function Table(b: BodyInput): LineTable
  {
    k => Line(b, k)
  }

  /** The pieces for line `k`: one piece when it is written, none otherwise. */
  function PiecesOf(t: LineTable, k: Kind): seq<Piece>
  {
    match t(k) case Some(v) => [Piece(k, v)] case None => []
  }

  /** The pieces of the lines of `o`, in order, leaving out those that are not written. */
  function Lines(t: LineTable, o: Order): seq<Piece>
  {
    match o
    case Done => []
    case Next(k, rest) => PiecesOf(t, k) + Lines(t, rest)
  }

  /** Every piece of the body, in the order the builder writes them. */
  function BodyPieces(b: BodyInput): seq<Piece>
  {
    Lines(Table(b), BodyOrder())
  }

  /** The bytes for line `k`: nothing when the line is not written. */
  function LineText(t: LineTable, k: Kind): Bytes
  {
    match t(k) case Some(v) => Render(Piece(k, v)) case None => []
  }

  /** `acc` followed by the text of the lines of `o`, in order: a builder that has written `acc` writing `o`. */
  function Emitted(t: LineTable, acc: Bytes, o: Order): Bytes
    decreases o
  {
    match o
    case Done => acc
    case Next(k, rest) => Emitted(t, acc + LineText(t, k), rest)
  }

  lemma {:induction false} FlattenConcat(a: seq<Piece>, b: seq<Piece>)
    ensures Flatten(a + b) == Flatten(a) + Flatten(b)
  {
    if a == [] {
      assert a + b == b;
    } else {
      assert (a + b)[0] == a[0];
      assert (a + b)[1..] == a[1..] + b;
      FlattenConcat(a[1..], b);
      AppendAssoc(Render(a[0]), Flatten(a[1..]), Flatten(b));
    }
  }

  /** The pieces of one line render to that line's text. */
  lemma PiecesText(t: LineTable, k: Kind)
    ensures Flatten(PiecesOf(t, k)) == LineText(t, k)
  {
    match t(k)
    case Some(v) =>
      assert [Piece(k, v)][1..] == [];
    case None =>
  }

  /** Writing the lines of `o` after `acc` appends the rendering of their pieces. */
  lemma {:induction false} EmittedIsFlatten(t: LineTable, acc: Bytes, o: Order)
    ensures Emitted(t, acc, o) == acc + Flatten(Lines(t, o))
    decreases o
  {
    match o
    case Done =>
    case Next(k, rest) =>
      EmittedIsFlatten(t, acc + LineText(t, k), rest);
      FlattenConcat(PiecesOf(t, k), Lines(t, rest));
      PiecesText(t, k);
      AppendAssoc(acc, LineText(t, k), Flatten(Lines(t, rest)));
  }

  /**
   * Over distinct kinds, line `k` is written at most once: once exactly when it is in the order
   * and the table has a value for it, and it then shows that value.
   */
  lemma {:induction false} LinesCountShown(t: LineTable, o: Order, k: Kind)
    requires Distinct(o)
    ensures Count(Lines(t, o), k) == if Mem(k, o) && t(k).Some? then 1 else 0
    ensures Shown(Lines(t, o), k) == if Mem(k, o) then t(k) else None
  {
    match o
    case Done =>
    case Next(first, rest) =>
      LinesCountShown(t, rest, k);
      var head := PiecesOf(t, first);
      CountShownConcat(head, Lines(t, rest), k);
      if head != [] {
        CountShownSingle(head[0], k);
        assert head == [head[0]];
      }
  }

  /** In the body, line `k` appears exactly once when `Line` has a value for it, never otherwise, and shows that value. */
  lemma BodyLine(b: BodyInput, k: Kind)
    ensures Count(BodyPieces(b), k) == if Line(b, k).Some? then 1 else 0
    ensures Shown(BodyPieces(b), k) == Line(b, k)
  {
    BodyOrderComplete(k);
    LinesCountShown(Table(b), BodyOrder(), k);
  }

  /** The fixed lines always appear once; the severity falls back to "Medium". */
  lemma OverviewLines(b: BodyInput)
    ensures var ps := BodyPieces(b);
      && Count(ps, Banner) == 1 && Count(ps, Overview) == 1
      && Count(ps, RuleName) == 1 && Shown(ps, RuleName) == Some(b.rule.name)
      && Count(ps, Severity) == 1
      && Shown(ps, Severity) == Some(if b.rule.severity == [] then DefaultSeverity else b.rule.severity)
      && Count(ps, FiredAt) == 1 && Shown(ps, FiredAt) == Some(b.firedAt)
      && Count(ps, IndexName) == 1 && Shown(ps, IndexName) == Some(b.rule.index)
      && Count(ps, TimeWindow) == 1 && Shown(ps, TimeWindow) == Some(b.rule.timeWindow)
      && Count(ps, HitCount) == 1 && Shown(ps, HitCount) == Some(Decimal(b.count))
  {
    BodyLine(b, Banner);
    BodyLine(b, Overview);
    BodyLine(b, RuleName);
    BodyLine(b, Severity);
    BodyLine(b, FiredAt);
    BodyLine(b, IndexName);
    BodyLine(b, TimeWindow);
    BodyLine(b, HitCount);
  }

  /** The description line appears exactly when the rule has a description. */
  lemma DescriptionLine(b: BodyInput)
    ensures Count(BodyPieces(b), Description) == if b.rule.description != [] then 1 else 0
    ensures b.rule.description != [] ==> Shown(BodyPieces(b), Description) == Some(b.rule.description)
  {
    BodyLine(b, Description);
  }

  /** The threshold line appears exactly when a threshold is set, and shows it. */
  lemma ThresholdLineShown(b: BodyInput)
    ensures Count(BodyPieces(b), ThresholdLine) == if b.rule.threshold.countGt.Some? then 1 else 0
    ensures b.rule.threshold.countGt.Some? ==>
      Shown(BodyPieces(b), ThresholdLine) == Some(Decimal(b.rule.threshold.countGt.value))
  {
    BodyLine(b, ThresholdLine);
  }

  /** The query line shows the query string, else the DSL marker, and is absent when neither is set. */
  lemma QueryLineShown(b: BodyInput)
    ensures b.rule.queryString != [] ==> Shown(BodyPieces(b), QueryLine) == Some(b.rule.queryString)
    ensures b.rule.queryString == [] && b.rule.dsl.Some? ==> Shown(BodyPieces(b), QueryLine) == Some(DslMarker)
    ensures Count(BodyPieces(b), QueryLine) == if b.rule.queryString == [] && b.rule.dsl.None? then 0 else 1
  {
    BodyLine(b, QueryLine);
  }

  /** The target heading appears exactly when there is a sample. */
  lemma TargetHeadingLine(b: BodyInput)
    ensures Count(BodyPieces(b), TargetHeading) == if b.samples != [] then 1 else 0
  {
    BodyLine(b, TargetHeading);
  }

  /** Line `k` shows the sample field `key`: present exactly when that field is a non-empty string. */
  predicate FieldShown(b: BodyInput, k: Kind, key: Bytes)
  {
    var v: Bytes := if b.samples == [] then [] else StrField(b.samples[0], key);
    && Count(BodyPieces(b), k) == (if v != [] then 1 else 0)
    && (v != [] ==> Shown(BodyPieces(b), k) == Some(v))
  }

  lemma FieldLine(b: BodyInput, k: Kind, key: Bytes)
    requires Line(b, k) == TargetField(b, key)
    ensures FieldShown(b, k, key)
  {
    var v: Bytes := if b.samples == [] then [] else StrField(b.samples[0], key);
    assert StrField(Sample(b), key) == v;
    assert Line(b, k) == If(v != [], v);
    BodyLine(b, k);
  }

  /** The node line appears exactly when the first sample's `kubernetes_host` is a non-empty string, and shows it. */
  lemma NodeLine(b: BodyInput)
    ensures FieldShown(b, Node, HostKey)
  {
    FieldLine(b, Node, HostKey);
  }

  /** The namespace line appears exactly when the first sample's `kubernetes_namespace_name` is a non-empty string, and shows it. */
  lemma NamespaceLine(b: BodyInput)
    ensures FieldShown(b, Namespace, NamespaceKey)
  {
    FieldLine(b, Namespace, NamespaceKey);
  }

  /** The pod line appears exactly when the first sample's `kubernetes_pod_name` is a non-empty string, and shows it. */
  lemma PodLine(b: BodyInput)
    ensures FieldShown(b, Pod, PodKey)
  {
    FieldLine(b, Pod, PodKey);
  }

  /** The image line appears exactly when the first sample's `kubernetes_container_image` is a non-empty string, and shows it. */
  lemma ImageLine(b: BodyInput)
    ensures FieldShown(b, Image, ImageKey)
  {
    FieldLine(b, Image, ImageKey);
  }

  /** The log-time line appears exactly when the first sample's `@timestamp` is a non-empty string, and shows it. */
  lemma LogTimeLine(b: BodyInput)
    ensures FieldShown(b, LogTime, TimestampField)
  {
    FieldLine(b, LogTime, TimestampField);
  }

  /** One line of the message block appears exactly when the first sample has a message. */
  lemma MessageBlockLine(b: BodyInput, k: Kind)
    requires k == LogHeading || k == Message || k == MessageEnd
    ensures var msg: Bytes := if b.samples == [] then [] else StrField(b.samples[0], MessageKey);
      Count(BodyPieces(b), k) == (if msg != [] then 1 else 0)
  {
    var msg: Bytes := if b.samples == [] then [] else StrField(b.samples[0], MessageKey);
    assert MessageOf(b) == msg;
    assert HasMessage(b) == (msg != []);
    assert Line(b, k).Some? == (msg != []);
    BodyLine(b, k);
  }

  /** The message block (heading, message, closing newline) appears exactly when the first sample has a message. */
  lemma MessageBlockLines(b: BodyInput)
    ensures var msg: Bytes := if b.samples == [] then [] else StrField(b.samples[0], MessageKey);
      && Count(BodyPieces(b), Message) == (if msg != [] then 1 else 0)
      && Count(BodyPieces(b), LogHeading) == Count(BodyPieces(b), Message)
      && Count(BodyPieces(b), MessageEnd) == Count(BodyPieces(b), Message)
  {
    MessageBlockLine(b, Message);
    MessageBlockLine(b, LogHeading);
    MessageBlockLine(b, MessageEnd);
  }

  /** A message of at most 800 bytes is shown verbatim; a longer one is cut to 800 bytes plus "...". */
  lemma MessageShown(b: BodyInput)
    ensures var msg: Bytes := if b.samples == [] then [] else StrField(b.samples[0], MessageKey);
      && (0 < |msg| <= 800 ==> Shown(BodyPieces(b), Message) == Some(msg))
      && (|msg| > 800 ==> Shown(BodyPieces(b), Message) == Some(msg[..800] + Ellipsis))
  {
    var msg: Bytes := if b.samples == [] then [] else StrField(b.samples[0], MessageKey);
    assert MessageOf(b) == msg;
    assert Line(b, Message) == If(msg != [], Truncate(msg));
    BodyLine(b, Message);
  }

  /** The truncation note appears exactly when the message is longer than 800 bytes. */
  lemma TruncationNoteLine(b: BodyInput)
    ensures var msg: Bytes := if b.samples == [] then [] else StrField(b.samples[0], MessageKey);
      Count(BodyPieces(b), TruncationNote) == (if |msg| > 800 then 1 else 0)
  {
    var msg: Bytes := if b.samples == [] then [] else StrField(b.samples[0], MessageKey);
    assert MessageOf(b) == msg;
    assert Line(b, TruncationNote).Some? == (|msg| > 800);
    BodyLine(b, TruncationNote);
  }

  /**
   * The link line appears exactly when the sample has an index and an id and there is an address,
   * and links the first address, its trailing slashes trimmed, to the document.
   */
  lemma LinkLine(b: BodyInput)
    ensures var doc: Doc := if b.samples == [] then map[] else b.samples[0];
      var index, id := StrField(doc, IndexKey), StrField(doc, IdKey);
      var present := b.samples != [] && index != [] && id != [] && |b.addresses| > 0;
      && Count(BodyPieces(b), Link) == (if present then 1 else 0)
      && (present ==> Shown(BodyPieces(b), Link) == Some(
           TrimTrailingSlashes(b.addresses[0]) + Slash + index + DocPath + id + PrettyQuery))
  {
    BodyLine(b, Link);
  }

  /** Writing the layout from position `i` starts with the line at `i`. */
  lemma EmitStep(t: LineTable, acc: Bytes, i: nat)
    requires i < KindCount
    ensures Emitted(t, acc, OrderFrom(i)) == Emitted(t, acc + LineText(t, KindAt(i)), OrderFrom(i + 1))
  {
  }

  /** `s` when `c` holds, nothing otherwise: a write the builder makes only under a condition. */
  function When(c: bool, s: Bytes): Bytes
  {
    if c then s else []
  }

  /** A target line: the prefix, the sample's field and a newline, when the field is a non-empty string. */
  function TargetLine(b: BodyInput, prefix: Bytes, key: Bytes): Bytes
  {
    When(b.samples != [] && StrField(Sample(b), key) != [], prefix + StrField(Sample(b), key) + NewLine)
  }

  /** `acc`, then the banner, the description, the overview heading and the rule's name. */
  function HeaderPart(b: BodyInput, acc: Bytes): Bytes
  {
    acc + BannerText + When(b.rule.description != [], b.rule.description + NewLine + NewLine)
    + OverviewText + (RuleNameLabel + b.rule.name + NewLine)
  }

  /** `acc`, then the severity, the time it fired, the index and the time window. */
  function RulePart(b: BodyInput, acc: Bytes): Bytes
  {
    acc + (SeverityLabel + SeverityOf(b.rule) + NewLine) + (FiredAtLabel + b.firedAt + NewLine)
    + (IndexLabel + b.rule.index + NewLine) + (WindowLabel + b.rule.timeWindow + NewLine)
  }

  /** The threshold line, when the rule has a count threshold. */
  function ThresholdText(r: Rule): Bytes
  {
    match r.threshold.countGt
    case Some(limit) => ThresholdLabel + Decimal(limit) + ThresholdUnit + NewLine
    case None => []
  }

  /** The query line: the query string, or the DSL marker for a DSL query, or nothing. */
  function QueryText(r: Rule): Bytes
  {
    if r.queryString != [] then QueryLabel + r.queryString + NewLine
    else When(r.dsl.Some?, QueryLabel + DslMarker + NewLine)
  }

  /** `acc`, then the hit count, the threshold and the query. */
  function CriteriaPart(b: BodyInput, acc: Bytes): Bytes
  {
    acc + (HitCountLabel + Decimal(b.count) + NewLine) + ThresholdText(b.rule) + QueryText(b.rule)
  }

  /** `acc`, then the target heading, the node and the namespace. */
  function TargetPart(b: BodyInput, acc: Bytes): Bytes
  {
    acc + When(b.samples != [], TargetText) + TargetLine(b, NodeLabel, HostKey) + TargetLine(b, NamespaceLabel, NamespaceKey)
  }

  /** `acc`, then the pod, the image and the log's timestamp. */
  function PodPart(b: BodyInput, acc: Bytes): Bytes
  {
    acc + TargetLine(b, PodLabel, PodKey) + TargetLine(b, ImageLabel, ImageKey) + TargetLine(b, LogTimeLabel, TimestampField)
  }

  /** Whether the message block is written: there is a sample and its message is non-empty. */
  predicate HasMessage(b: BodyInput)
  {
    b.samples != [] && MessageOf(b) != []
  }

  /** `acc`, then the log heading, the (truncated) message, the truncation note and the closing newline. */
  function MessagePart(b: BodyInput, acc: Bytes): Bytes
  {
    acc + When(HasMessage(b), LogText) + When(HasMessage(b), Truncate(MessageOf(b)))
    + When(b.samples != [] && |MessageOf(b)| > MaxMessageBytes, TruncationText) + When(HasMessage(b), NewLine)
  }

  /** The link line, when there is a link. */
  function LinkText(b: BodyInput): Bytes
  {
    match LinkOf(b)
    case Some(url) => LinkLabel + url + NewLine
    case None => []
  }

  /** `acc`, then the link line. */
  function LinkPart(b: BodyInput, acc: Bytes): Bytes
  {
    acc + LinkText(b)
  }

  /** `acc`, then the lines taken from the first sample. */
  function SamplePart(b: BodyInput, acc: Bytes): Bytes
  {
    LinkPart(b, MessagePart(b, PodPart(b, TargetPart(b, acc))))
  }

  /** The body as the builder writes it, section after section. */
  function BodyText(b: BodyInput): Bytes
  {
    SamplePart(b, CriteriaPart(b, RulePart(b, HeaderPart(b, []))))
  }

  /** Without a sample, the builder writes none of the sample's lines. */
  lemma NoSampleLines(b: BodyInput, acc: Bytes)
    requires b.samples == []
    ensures SamplePart(b, acc) == acc
  {
    assert TargetPart(b, acc) == acc;
    assert PodPart(b, acc) == acc;
    assert MessagePart(b, acc) == acc;
    assert LinkPart(b, acc) == acc;
  }

  /** Each header line's text, as the builder writes it. */
  lemma HeaderTexts(b: BodyInput)
    ensures LineText(Table(b), Banner) == BannerText
    ensures LineText(Table(b), Description) == When(b.rule.description != [], b.rule.description + NewLine + NewLine)
    ensures LineText(Table(b), Overview) == OverviewText
    ensures LineText(Table(b), RuleName) == RuleNameLabel + b.rule.name + NewLine
  {
  }

  lemma RuleTexts(b: BodyInput)
    ensures LineText(Table(b), Severity) == SeverityLabel + SeverityOf(b.rule) + NewLine
    ensures LineText(Table(b), FiredAt) == FiredAtLabel + b.firedAt + NewLine
    ensures LineText(Table(b), IndexName) == IndexLabel + b.rule.index + NewLine
    ensures LineText(Table(b), TimeWindow) == WindowLabel + b.rule.timeWindow + NewLine
  {
  }

  lemma CriteriaTexts(b: BodyInput)
    ensures LineText(Table(b), HitCount) == HitCountLabel + Decimal(b.count) + NewLine
    ensures LineText(Table(b), ThresholdLine) == ThresholdText(b.rule)
    ensures LineText(Table(b), QueryLine) == QueryText(b.rule)
  {
  }

  lemma TargetTexts(b: BodyInput)
    ensures LineText(Table(b), TargetHeading) == When(b.samples != [], TargetText)
    ensures LineText(Table(b), Node) == TargetLine(b, NodeLabel, HostKey)
    ensures LineText(Table(b), Namespace) == TargetLine(b, NamespaceLabel, NamespaceKey)
  {
  }

  lemma PodTexts(b: BodyInput)
    ensures LineText(Table(b), Pod) == TargetLine(b, PodLabel, PodKey)
    ensures LineText(Table(b), Image) == TargetLine(b, ImageLabel, ImageKey)
    ensures LineText(Table(b), LogTime) == TargetLine(b, LogTimeLabel, TimestampField)
  {
  }

  lemma MessageTexts(b: BodyInput)
    ensures LineText(Table(b), LogHeading) == When(HasMessage(b), LogText)
    ensures LineText(Table(b), Message) == When(HasMessage(b), Truncate(MessageOf(b)))
  {
  }

  lemma MessageTailTexts(b: BodyInput)
    ensures LineText(Table(b), TruncationNote) == When(b.samples != [] && |MessageOf(b)| > MaxMessageBytes, TruncationText)
    ensures LineText(Table(b), MessageEnd) == When(HasMessage(b), NewLine)
  {
  }

  /** Writing three lines in a row whose texts are `x`, `y` and `z`. */
  lemma EmitThree(t: LineTable, acc: Bytes, i: nat, x: Bytes, y: Bytes, z: Bytes)
    requires i + 3 <= KindCount
    requires LineText(t, KindAt(i)) == x && LineText(t, KindAt(i + 1)) == y && LineText(t, KindAt(i + 2)) == z
    ensures Emitted(t, acc, OrderFrom(i)) == Emitted(t, acc + x + y + z, OrderFrom(i + 3))
  {
    EmitStep(t, acc, i);
    EmitStep(t, acc + x, i + 1);
    EmitStep(t, acc + x + y, i + 2);
  }

  /** Writing four lines in a row whose texts are `w`, `x`, `y` and `z`. */
  lemma EmitFour(t: LineTable, acc: Bytes, i: nat, w: Bytes, x: Bytes, y: Bytes, z: Bytes)
    requires i + 4 <= KindCount
    requires LineText(t, KindAt(i)) == w && LineText(t, KindAt(i + 1)) == x
    requires LineText(t, KindAt(i + 2)) == y && LineText(t, KindAt(i + 3)) == z
    ensures Emitted(t, acc, OrderFrom(i)) == Emitted(t, acc + w + x + y + z, OrderFrom(i + 4))
  {
    EmitStep(t, acc, i);
    EmitThree(t, acc + w, i + 1, x, y, z);
  }

  lemma HeaderEmitted(b: BodyInput, acc: Bytes)
    ensures Emitted(Table(b), acc, OrderFrom(0)) == Emitted(Table(b), HeaderPart(b, acc), OrderFrom(4))
  {
    HeaderTexts(b);
    EmitFour(Table(b), acc, 0, BannerText, When(b.rule.description != [], b.rule.description + NewLine + NewLine),
             OverviewText, RuleNameLabel + b.rule.name + NewLine);
  }

  lemma RuleEmitted(b: BodyInput, acc: Bytes)
    ensures Emitted(Table(b), acc, OrderFrom(4)) == Emitted(Table(b), RulePart(b, acc), OrderFrom(8))
  {
    RuleTexts(b);
    EmitFour(Table(b), acc, 4, SeverityLabel + SeverityOf(b.rule) + NewLine, FiredAtLabel + b.firedAt + NewLine,
             IndexLabel + b.rule.index + NewLine, WindowLabel + b.rule.timeWindow + NewLine);
  }

  lemma CriteriaEmitted(b: BodyInput, acc: Bytes)
    ensures Emitted(Table(b), acc, OrderFrom(8)) == Emitted(Table(b), CriteriaPart(b, acc), OrderFrom(11))
  {
    CriteriaTexts(b);
    EmitThree(Table(b), acc, 8, HitCountLabel + Decimal(b.count) + NewLine, ThresholdText(b.rule), QueryText(b.rule));
  }

  lemma TargetEmitted(b: BodyInput, acc: Bytes)
    ensures Emitted(Table(b), acc, OrderFrom(11)) == Emitted(Table(b), TargetPart(b, acc), OrderFrom(14))
  {
    TargetTexts(b);
    EmitThree(Table(b), acc, 11, When(b.samples != [], TargetText), TargetLine(b, NodeLabel, HostKey),
              TargetLine(b, NamespaceLabel, NamespaceKey));
  }

  lemma PodEmitted(b: BodyInput, acc: Bytes)
    ensures Emitted(Table(b), acc, OrderFrom(14)) == Emitted(Table(b), PodPart(b, acc), OrderFrom(17))
  {
    PodTexts(b);
    EmitThree(Table(b), acc, 14, TargetLine(b, PodLabel, PodKey), TargetLine(b, ImageLabel, ImageKey),
              TargetLine(b, LogTimeLabel, TimestampField));
  }

  lemma MessageEmitted(b: BodyInput, acc: Bytes)
    ensures Emitted(Table(b), acc, OrderFrom(17)) == Emitted(Table(b), MessagePart(b, acc), OrderFrom(21))
  {
    MessageTexts(b);
    MessageTailTexts(b);
    EmitFour(Table(b), acc, 17, When(HasMessage(b), LogText), When(HasMessage(b), Truncate(MessageOf(b))),
             When(b.samples != [] && |MessageOf(b)| > MaxMessageBytes, TruncationText), When(HasMessage(b), NewLine));
  }

  lemma LinkEmitted(b: BodyInput, acc: Bytes)
    ensures Emitted(Table(b), acc, OrderFrom(21)) == LinkPart(b, acc)
  {
    assert LineText(Table(b), Link) == LinkText(b);
    EmitStep(Table(b), acc, 21);
  }

  /** The builder's text, section after section, is the rendering of the body's pieces. */
  lemma BodyIsText(b: BodyInput)
    ensures BodyText(b) == Flatten(BodyPieces(b))
  {
    var t := Table(b);
    EmittedIsFlatten(t, [], BodyOrder());
    var h := HeaderPart(b, []);
    HeaderEmitted(b, []);
    var r := RulePart(b, h);
    RuleEmitted(b, h);
    var c := CriteriaPart(b, r);
    CriteriaEmitted(b, r);
    var g := TargetPart(b, c);
    TargetEmitted(b, c);
    var p := PodPart(b, g);
    PodEmitted(b, g);
    var m := MessagePart(b, p);
    MessageEmitted(b, p);
    LinkEmitted(b, m);
  }

  /**
   * `renderBody`: writes the lines in order into a builder. The result is the rendering of
   * `BodyPieces`, whose lines the lemmas above describe. The wall-clock time is the parameter
   * `firedAt`, already formatted.
   */
  method RenderBody(r: Rule, count: int, samples: seq<Doc>, addresses: seq<Bytes>, firedAt: Bytes)
    returns (body: Bytes)
    ensures body == Flatten(BodyPieces(BodyInput(r, count, samples, addresses, firedAt)))
  {
    body := WriteBody(r, count, samples, addresses, firedAt);
    BodyIsText(BodyInput(r, count, samples, addresses, firedAt));
  }

  /** The builder's writes, section after section: `BodyText`. */
  method WriteBody(r: Rule, count: int, samples: seq<Doc>, addresses: seq<Bytes>, firedAt: Bytes)
    returns (body: Bytes)
    ensures body == BodyText(BodyInput(r, count, samples, addresses, firedAt))
  {
    ghost var b := BodyInput(r, count, samples, addresses, firedAt);
    var severity := r.severity;
    if severity == [] {
      severity := DefaultSeverity;
    }
    body := [];
    body := WriteHeader(b, r, body);
    body := WriteRuleLines(b, r, severity, firedAt, body);
    body := WriteCriteria(b, r, count, body);
    if |samples| > 0 {
      body := WriteSample(b, samples[0], addresses, body);
    } else {
      NoSampleLines(b, body);
    }
  }

  /** The lines of the first sample: target, pod, message and link. */
  method WriteSample(ghost b: BodyInput, doc: Doc, addresses: seq<Bytes>, body0: Bytes) returns (body: Bytes)
    requires b.samples != [] && doc == b.samples[0] && addresses == b.addresses
    ensures body == SamplePart(b, body0)
  {
    body := WriteTarget(b, doc, body0);
    body := WritePod(b, doc, body);
    body := WriteMessage(b, doc, body);
    body := WriteLink(b, doc, addresses, body);
  }

  /** The banner, the description when there is one, the overview heading and the rule's name. */
  method WriteHeader(ghost b: BodyInput, r: Rule, body0: Bytes) returns (body: Bytes)
    requires b.rule == r
    ensures body == HeaderPart(b, body0)
  {
    body := body0 + BannerText;
    if r.description != [] {
      body := body + (r.description + NewLine + NewLine);
    }
    body := body + OverviewText;
    body := body + (RuleNameLabel + r.name + NewLine);
  }

  /** The severity (already defaulted), the time it fired, the index and the time window. */
  method WriteRuleLines(ghost b: BodyInput, r: Rule, severity: Bytes, firedAt: Bytes, body0: Bytes)
    returns (body: Bytes)
    requires b.rule == r && severity == SeverityOf(r) && firedAt == b.firedAt
    ensures body == RulePart(b, body0)
  {
    body := body0 + (SeverityLabel + severity + NewLine);
    body := body + (FiredAtLabel + firedAt + NewLine);
    body := body + (IndexLabel + r.index + NewLine);
    body := body + (WindowLabel + r.timeWindow + NewLine);
  }

  /** The hit count, the threshold when there is one, and the query or the DSL marker. */
  method WriteCriteria(ghost b: BodyInput, r: Rule, count: int, body0: Bytes) returns (body: Bytes)
    requires b.rule == r && b.count == count
    ensures body == CriteriaPart(b, body0)
  {
    body := body0 + (HitCountLabel + Decimal(count) + NewLine);
    if r.threshold.countGt.Some? {
      body := body + (ThresholdLabel + Decimal(r.threshold.countGt.value) + ThresholdUnit + NewLine);
    }
    if r.queryString != [] {
      body := body + (QueryLabel + r.queryString + NewLine);
    } else if r.dsl.Some? {
      body := body + (QueryLabel + DslMarker + NewLine);
    }
  }

  /** The target heading, then the node and the namespace of the first sample when they are set. */
  method WriteTarget(ghost b: BodyInput, doc: Doc, body0: Bytes) returns (body: Bytes)
    requires b.samples != [] && doc == b.samples[0]
    ensures body == TargetPart(b, body0)
  {
    var node := StrField(doc, HostKey);
    var ns := StrField(doc, NamespaceKey);
    body := body0 + TargetText;
    if node != [] {
      body := body + (NodeLabel + node + NewLine);
    }
    if ns != [] {
      body := body + (NamespaceLabel + ns + NewLine);
    }
  }

  /** The pod, the image and the log's timestamp of the first sample, each when it is set. */
  method WritePod(ghost b: BodyInput, doc: Doc, body0: Bytes) returns (body: Bytes)
    requires b.samples != [] && doc == b.samples[0]
    ensures body == PodPart(b, body0)
  {
    var pod := StrField(doc, PodKey);
    var image := StrField(doc, ImageKey);
    var ts := StrField(doc, TimestampField);
    body := body0;
    if pod != [] {
      body := body + (PodLabel + pod + NewLine);
    }
    if image != [] {
      body := body + (ImageLabel + image + NewLine);
    }
    if ts != [] {
      body := body + (LogTimeLabel + ts + NewLine);
    }
  }

  /** The log heading and the message, cut to 800 bytes with a note when longer, when there is one. */
  method WriteMessage(ghost b: BodyInput, doc: Doc, body0: Bytes) returns (body: Bytes)
    requires b.samples != [] && doc == b.samples[0]
    ensures body == MessagePart(b, body0)
  {
    var msg := StrField(doc, MessageKey);
    ghost var fullMsg := msg;
    var truncated := false;
    if |msg| > MaxMessageBytes {
      truncated := true;
      msg := msg[..MaxMessageBytes] + Ellipsis;
    }
    assert msg == Truncate(fullMsg);
    body := body0;
    if msg != [] {
      body := body + LogText;
      body := body + msg;
      if truncated {
        body := body + TruncationText;
      }
      body := body + NewLine;
    }
  }

  /** The link to the first sample's document, when it has an index and an id and there is an address. */
  method WriteLink(ghost b: BodyInput, doc: Doc, addresses: seq<Bytes>, body0: Bytes) returns (body: Bytes)
    requires b.samples != [] && doc == b.samples[0] && addresses == b.addresses
    ensures body == LinkPart(b, body0)
  {
    var indexName := StrField(doc, IndexKey);
    var docId := StrField(doc, IdKey);
    body := body0;
    if indexName != [] && docId != [] && |addresses| > 0 {
      var base := TrimTrailingSlashes(addresses[0]);
      var detailUrl := base + Slash + indexName + DocPath + docId + PrettyQuery;
      assert LinkOf(b) == Some(detailUrl);
      body := body + (LinkLabel + detailUrl + NewLine);
    } else {
      assert LinkOf(b) == None;
    }
  }
}
