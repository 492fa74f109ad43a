/** The document vault: the type badge, which documents offer analysis, and
    the analysis modal, whose content is read field by field with a literal
    default for each. The analysis result is a parameter. */
module Documents {
  import opened Wrappers
  import opened Types
  import MockDb

  /** A value `JSON.parse` can produce. */
  datatype Json = JNull | JBool(b: bool) | JNum(n: real) | JStr(s: string)
                | JArr(items: seq<Json>) | JObj(fields: map<string, Json>)

  /** JavaScript truthiness (NaN is not representable here). */
  predicate Truthy(j: Json) {
    match j
    case JNull => false
    case JBool(b) => b
    case JNum(n) => n != 0.0
    case JStr(s) => s != ""
    case JArr(_) => true
    case JObj(_) => true
  }

  /** `j[key]` on a value other than null: only an object has named properties
      here; anything else gives `undefined` (`None`). */
  function Property(j: Json, key: string): (r: Option<Json>)
    ensures r.Some? <==> j.JObj? && key in j.fields
  {
    if j.JObj? && key in j.fields then Some(j.fields[key]) else None
  }

  /** `j[key] || dflt`. */
  function FieldOr(j: Json, key: string, dflt: string): (r: Json)
    ensures r == JStr(dflt) <==> Property(j, key).None? || !Truthy(Property(j, key).value)
                                 || Property(j, key).value == JStr(dflt)
    ensures r != JStr(dflt) ==> Property(j, key) == Some(r) && Truthy(r)
  {
    match Property(j, key)
    case Some(v) => if Truthy(v) then v else JStr(dflt)
    case None => JStr(dflt)
  }

  /** The value the modal holds while the request is outstanding. */
  const Sentinel := "Analyzing..."

  const EarningsKey := "Estimated Total Earnings"
  const SourceKey := "Top Revenue Source"
  const AnomalyKey := "One potential anomaly or warning"

  datatype ModalView = Closed | Processing | Details(earnings: Json, topSource: Json, note: Json)

  /** The three fields shown for a finished analysis. */
  function DetailsOf(a: Json): (v: ModalView)
    ensures v.Details?
    ensures v.earnings == FieldOr(a, EarningsKey, "$1,240.50")
    ensures v.topSource == FieldOr(a, SourceKey, "Spotify")
    ensures v.note == FieldOr(a, AnomalyKey, "No anomalies detected.")
  {
    Details(FieldOr(a, EarningsKey, "$1,240.50"), FieldOr(a, SourceKey, "Spotify"),
            FieldOr(a, AnomalyKey, "No anomalies detected."))
  }

  /** The analysis modal: open exactly when `analysis` is truthy; the processing
      view while it holds the sentinel; otherwise the three fields, each
      falling back to its literal. */
  function Modal(a: Json): (v: ModalView)
    ensures v.Closed? <==> !Truthy(a)
    ensures v.Processing? <==> a == JStr(Sentinel)
    ensures v.Details? ==> v == DetailsOf(a)
  {
    if !Truthy(a) then Closed
    else if a == JStr(Sentinel) then Processing
    else DetailsOf(a)
  }

  /** A null result, as a failed analysis returns, leaves the modal closed. */
  lemma FailedAnalysisClosed()
    ensures Modal(JNull) == Closed
  {
  }

  /** A payload without the keys, or a plain string such as the
      missing-credential reply, shows every default. */
  lemma DefaultsShown(a: Json)
    requires Truthy(a) && a != JStr(Sentinel)
    requires !a.JObj? || (EarningsKey !in a.fields && SourceKey !in a.fields && AnomalyKey !in a.fields)
    ensures Modal(a) == Details(JStr("$1,240.50"), JStr("Spotify"), JStr("No anomalies detected."))
  {
  }

  /** A value React accepts as a child: an object is refused, and an array
      only when each of its items is accepted. */
  predicate Renderable(j: Json) {
    match j
    case JObj(_) => false
    case JArr(items) => forall i :: 0 <= i < |items| ==> Renderable(items[i])
    case _ => true
  }

  predicate DetailsRenderable(v: ModalView) {
    v.Details? ==> Renderable(v.earnings) && Renderable(v.topSource) && Renderable(v.note)
  }

  /** What the page renders for the modal as written: the children are built
      before the modal looks at `isOpen`, so the field reads run even for a
      closed modal, and reading a property of null throws. An open modal
      whose shown field holds an object throws as well. */
  datatype Render = TypeError | Rendered(view: ModalView)

  function RenderAsWritten(a: Json): (r: Render)
    ensures r.TypeError? <==> a.JNull? || (Truthy(a) && a != JStr(Sentinel) && !DetailsRenderable(DetailsOf(a)))
    ensures r.Rendered? ==> r.view == Modal(a)
  {
    var children := if a == JStr(Sentinel) then Some(Processing)
                    else if a.JNull? then None
                    else Some(DetailsOf(a));
    match children
    case None => TypeError
    case Some(c) =>
      if !Truthy(a) then Rendered(Closed)
      else if DetailsRenderable(c) then Rendered(c)
      else TypeError
  }

  /** An analysis whose top source is an object makes the open modal throw. */
  lemma RenderAsWrittenThrowsOnObjectField()
    ensures RenderAsWritten(JObj(map[SourceKey := JObj(map[])])) == TypeError
  {
    var a := JObj(map[SourceKey := JObj(map[])]);
    assert Property(a, SourceKey) == Some(JObj(map[]));
  }

  /** The page starts with `analysis` null, and a failed analysis or closing
      the modal sets it back to null: each of those renders throws. */
  lemma RenderAsWrittenThrowsOnNull()
    ensures RenderAsWritten(JNull) == TypeError
    ensures Modal(JNull) == Closed
  {
  }

  // ----- Cards -----

  /** `s.indexOf(c)`, with `|s|` standing for "not found". */
  function IndexOf(s: string, c: char): (k: nat)
    ensures k <= |s|
    ensures forall j :: 0 <= j < k ==> s[j] != c
    ensures k < |s| ==> s[k] == c
  {
    if s == [] then 0 else if s[0] == c then 0 else 1 + IndexOf(s[1..], c)
  }

  /** `s.replace(from, to)` with a one-character string pattern: only the
      first occurrence is replaced. */
  function ReplaceFirst(s: string, from: char, to: char): (r: string)
    ensures |r| == |s|
    ensures forall j :: 0 <= j < |s| ==> r[j] == if j == IndexOf(s, from) then to else s[j]
  {
    if s == [] then []
    else if s[0] == from then [to] + s[1..]
    else [s[0]] + ReplaceFirst(s[1..], from, to)
  }

  /** `doc.type.replace('_', ' ')`: every type name has at most one
      underscore, so each underscore becomes a space and nothing else changes. */
  function BadgeLabel(t: DocType): (r: string)
    ensures |r| == |t.Name()|
    ensures forall j :: 0 <= j < |r| ==> r[j] == if t.Name()[j] == '_' then ' ' else t.Name()[j]
  {
    match t
    case Contract => ReplaceAbsent("contract"); ReplaceFirst(t.Name(), '_', ' ')
    case Registration => ReplaceAbsent("registration"); ReplaceFirst(t.Name(), '_', ' ')
    case RoyaltyStatement =>
      assert t.Name() == "royalty" + "_" + "statement";
      UnderscoreReplaced("royalty", "statement");
      ReplaceFirst(t.Name(), '_', ' ')
    case SplitSheet =>
      assert t.Name() == "split" + "_" + "sheet";
      UnderscoreReplaced("split", "sheet");
      ReplaceFirst(t.Name(), '_', ' ')
  }

  /** Two underscore-free words joined by '_': the one underscore is replaced. */
  lemma UnderscoreReplaced(a: string, b: string)
    requires '_' !in a && '_' !in b
    ensures var s := a + "_" + b;
            forall j :: 0 <= j < |s| ==> ReplaceFirst(s, '_', ' ')[j] == if s[j] == '_' then ' ' else s[j]
  {
    var s := a + "_" + b;
    assert s[|a|] == '_';
    assert forall j :: 0 <= j < |a| ==> s[j] == a[j];
    assert IndexOf(s, '_') == |a|;
    forall j | 0 <= j < |s| && j != |a| ensures s[j] != '_' {
      if j > |a| { assert s[j] == b[j - |a| - 1]; }
    }
  }

  /** The badge shows the type's name with its first underscore made a space. */
  lemma BadgeLabelContract()
    ensures BadgeLabel(Contract) == "contract"
  {
    UnchangedLabel(Contract);
  }

  lemma BadgeLabelRegistration()
    ensures BadgeLabel(Registration) == "registration"
  {
    UnchangedLabel(Registration);
  }

  /** A type name without an underscore is shown as it is. */
  lemma UnchangedLabel(t: DocType)
    requires '_' !in t.Name()
    ensures BadgeLabel(t) == t.Name()
  {
    var r, n := BadgeLabel(t), t.Name();
    forall j | 0 <= j < |r| ensures r[j] == n[j] {
      assert n[j] in n;
    }
  }

  lemma BadgeLabelRoyaltyStatement()
    ensures BadgeLabel(RoyaltyStatement) == "royalty statement"
  {
    JoinedName("royalty", "statement", "royalty_statement", "royalty statement");
  }

  lemma BadgeLabelSplitSheet()
    ensures BadgeLabel(SplitSheet) == "split sheet"
  {
    JoinedName("split", "sheet", "split_sheet", "split sheet");
  }

  /** A name made of two underscore-free words joined by '_' is shown with a
      space between them. */
  lemma JoinedName(a: string, b: string, name: string, shown: string)
    requires '_' !in a && name == a + "_" + b && shown == a + " " + b
    ensures ReplaceFirst(name, '_', ' ') == shown
  {
    ReplaceAfterPrefix(a, b);
  }

  /** Without an underscore nothing is replaced. */
  lemma ReplaceAbsent(s: string)
    requires '_' !in s
    ensures ReplaceFirst(s, '_', ' ') == s
    ensures forall j :: 0 <= j < |s| ==> s[j] != '_'
  {
    assert IndexOf(s, '_') == |s|;
  }

  /** The underscore after a prefix without one is the one replaced. */
  lemma ReplaceAfterPrefix(a: string, b: string)
    requires '_' !in a
    ensures ReplaceFirst(a + "_" + b, '_', ' ') == a + " " + b
  {
    var s := a + "_" + b;
    var k := IndexOf(s, '_');
    assert s[|a|] == '_';
    assert forall j :: 0 <= j < |a| ==> s[j] == a[j];
    assert k == |a|;
    var r := ReplaceFirst(s, '_', ' ');
    var t := a + " " + b;
    forall j | 0 <= j < |s| ensures r[j] == t[j] { }
  }

  /** The Analyze button is offered exactly when the stored type string is
      "royalty_statement". */
  function CanAnalyze(d: Document): (r: bool)
    ensures r <==> d.doc_type.Name() == "royalty_statement"
  {
    d.doc_type == RoyaltyStatement
  }

  /** Of the seeded documents only the distributor statement offers Analyze. */
  lemma SeedAnalyzable()
    ensures CanAnalyze(MockDb.SeedDocs[0]) && !CanAnalyze(MockDb.SeedDocs[1])
  {
  }

  /** A document offering Analyze carries the "royalty statement" badge, and
      no other badge does. */
  lemma AnalyzableBadge(d: Document)
    ensures CanAnalyze(d) <==> BadgeLabel(d.doc_type) == "royalty statement"
  {
    BadgeLabelContract();
    BadgeLabelRegistration();
    BadgeLabelRoyaltyStatement();
    BadgeLabelSplitSheet();
  }

  /** The state the vault page holds. */
  class DocumentsPage {
    var docs: seq<Document>
    var analysis: Json

    constructor ()
      ensures docs == [] && analysis == JNull
    {
      docs := [];
      analysis := JNull;
    }

    method Load(db: MockDb.Store)
      modifies this`docs
      ensures docs == db.docs
    {
      docs := db.DocsGetAll();
    }

    /** `handleAnalyze`: the sentinel is shown while the request is
        outstanding (`pending`), then the result replaces it. The document is
        read only by the analysis call, whose `result` is a parameter. */
    method HandleAnalyze(result: Json) returns (pending: ModalView)
      modifies this`analysis
      ensures pending == Processing
      ensures analysis == result
    {
      analysis := JStr(Sentinel);
      pending := Modal(analysis);
      analysis := result;
    }

    method CloseModal()
      modifies this`analysis
      ensures analysis == JNull && Modal(analysis) == Closed
    {
      analysis := JNull;
    }
  }
}
