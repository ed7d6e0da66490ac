/** The OCR payload (a Textract AnalyzeExpense response) and
  * `_format_textract_for_llm` of api/workflow/nodes.py, which renders it as
  * the text block given to the language model. A key that is absent from a
  * nested dictionary of the response reads as its default (`[]`, "Unknown"
  * or ""), so inner absent lists are represented as empty sequences and
  * absent texts as `None`. */
module TextractFormat {
  import opened Wrappers
  import opened Text

  /** A summary or line-item field: `Type.Text` and `ValueDetection.Text`,
    * `None` when either the dictionary or its `Text` key is absent. */
  datatype ExpenseField = ExpenseField(typeText: Option<string>, valueText: Option<string>)

  datatype LineItem = LineItem(expenseFields: seq<ExpenseField>)

  datatype LineItemGroup = LineItemGroup(lineItems: seq<LineItem>)

  datatype ExpenseDocument = ExpenseDocument(summaryFields: seq<ExpenseField>, lineItemGroups: seq<LineItemGroup>)

  /** The response dictionary: its `ExpenseDocuments` entry, if present,
    * and how many other top-level keys it has (metadata the formatter
    * ignores, but which make the dictionary non-empty). */
  datatype OcrPayload = OcrPayload(expenseDocuments: Option<seq<ExpenseDocument>>, otherKeys: nat)

  /** The dictionary is `{}`, which is falsy in Python. */
  predicate IsEmptyDict(p: OcrPayload)
  {
    p.expenseDocuments.None? && p.otherKeys == 0
  }

  const HEADER: string := "=== RECEIPT DATA ===\n\n"

  /** One rendered field: `<indent>- <type>: <value>` and a line break. */
  function FieldLine(indent: string, f: ExpenseField): string
  {
    indent + "- " + f.typeText.GetOr("Unknown") + ": " + f.valueText.GetOr("") + "\n"
  }

  function FieldLines(indent: string, fs: seq<ExpenseField>): string
  {
    if fs == [] then "" else FieldLines(indent, fs[..|fs| - 1]) + FieldLine(indent, fs[|fs| - 1])
  }

  /** The heading of the item numbered `n` within its group. */
  function ItemHeading(n: nat): string
  {
    "\nItem " + NatToString(n) + ":\n"
  }

  /** The items of one group, numbered from 1. */
  function ItemBlocks(items: seq<LineItem>): string
  {
    if items == [] then ""
    else ItemBlocks(items[..|items| - 1]) + ItemHeading(|items|) + FieldLines("  ", items[|items| - 1].expenseFields)
  }

  function GroupsText(groups: seq<LineItemGroup>): string
  {
    if groups == [] then "" else GroupsText(groups[..|groups| - 1]) + ItemBlocks(groups[|groups| - 1].lineItems)
  }

  function DocumentText(d: ExpenseDocument): string
  {
    "SUMMARY FIELDS:\n" + FieldLines("", d.summaryFields) + "\nLINE ITEMS:\n" + GroupsText(d.lineItemGroups)
  }

  function DocumentsText(ds: seq<ExpenseDocument>): string
  {
    if ds == [] then "" else DocumentsText(ds[..|ds| - 1]) + DocumentText(ds[|ds| - 1])
  }

  /** The text `_format_textract_for_llm` returns. */
  function FormattedText(p: OcrPayload): string
  {
    HEADER + DocumentsText(p.expenseDocuments.GetOr([]))
  }

  lemma AppendAssoc(a: string, b: string, c: string)
    ensures (a + b) + c == a + (b + c)
  {
  }

  // `_format_textract_for_llm` is one function with four nested loops; each
  // loop level is written as its own method below so that each proof stays
  // small. Together they append to `formatted` exactly as the nested loops do.

  /** The innermost loop: one line per field, appended to `formatted`. */
  method AppendFieldLines(formatted: string, indent: string, fields: seq<ExpenseField>) returns (r: string)
    ensures r == formatted + FieldLines(indent, fields)
  {
    r := formatted;
    var f := 0;
    while f < |fields|
      invariant 0 <= f <= |fields|
      invariant r == formatted + FieldLines(indent, fields[..f])
    {
      var fieldType := fields[f].typeText.GetOr("Unknown");
      var value := fields[f].valueText.GetOr("");
      var line := indent + "- " + fieldType + ": " + value + "\n";
      assert line == FieldLine(indent, fields[f]);
      assert fields[..f + 1][..f] == fields[..f];
      AppendAssoc(formatted, FieldLines(indent, fields[..f]), line);
      r := r + line;
      f := f + 1;
    }
    assert fields[..f] == fields;
  }

  /** `for item_idx, item in enumerate(group.get('LineItems', []), 1)`. */
  method AppendItemBlocks(formatted: string, items: seq<LineItem>) returns (r: string)
    ensures r == formatted + ItemBlocks(items)
  {
    r := formatted;
    var k := 0;
    while k < |items|
      invariant 0 <= k <= |items|
      invariant r == formatted + ItemBlocks(items[..k])
    {
      var itemIdx := k + 1;
      ghost var before := r;
      var heading := "\nItem " + NatToString(itemIdx) + ":\n";
      r := r + heading;
      r := AppendFieldLines(r, "  ", items[k].expenseFields);
      ghost var lines := FieldLines("  ", items[k].expenseFields);
      assert items[..k + 1][..k] == items[..k];
      assert ItemBlocks(items[..k + 1]) == ItemBlocks(items[..k]) + heading + lines;
      AppendAssoc(before, heading, lines);
      AppendAssoc(formatted, ItemBlocks(items[..k]), heading + lines);
      AppendAssoc(ItemBlocks(items[..k]), heading, lines);
      k := k + 1;
    }
    assert items[..k] == items;
  }

  /** `for group in doc.get('LineItemGroups', [])`. */
  method AppendGroups(formatted: string, groups: seq<LineItemGroup>) returns (r: string)
    ensures r == formatted + GroupsText(groups)
  {
    r := formatted;
    var g := 0;
    while g < |groups|
      invariant 0 <= g <= |groups|
      invariant r == formatted + GroupsText(groups[..g])
    {
      r := AppendItemBlocks(r, groups[g].lineItems);
      assert groups[..g + 1][..g] == groups[..g];
      AppendAssoc(formatted, GroupsText(groups[..g]), ItemBlocks(groups[g].lineItems));
      g := g + 1;
    }
    assert groups[..g] == groups;
  }

  /** The body of the outer loop: one document's two sections. */
  method AppendDocument(formatted: string, doc: ExpenseDocument) returns (r: string)
    ensures r == formatted + DocumentText(doc)
  {
    r := formatted + "SUMMARY FIELDS:\n";
    r := AppendFieldLines(r, "", doc.summaryFields);
    ghost var s1 := FieldLines("", doc.summaryFields);
    r := r + "\nLINE ITEMS:\n";
    r := AppendGroups(r, doc.lineItemGroups);
    ghost var s2 := GroupsText(doc.lineItemGroups);
    AppendAssoc(formatted, "SUMMARY FIELDS:\n", s1);
    AppendAssoc(formatted, "SUMMARY FIELDS:\n" + s1, "\nLINE ITEMS:\n");
    AppendAssoc(formatted, "SUMMARY FIELDS:\n" + s1 + "\nLINE ITEMS:\n", s2);
  }

  /** `_format_textract_for_llm`: the header, then each document's summary
    * fields and line items. */
  method FormatTextractForLlm(p: OcrPayload) returns (formatted: string)
    ensures formatted == FormattedText(p)
  {
    formatted := HEADER;
    var docs := p.expenseDocuments.GetOr([]);
    var d := 0;
    while d < |docs|
      invariant 0 <= d <= |docs|
      invariant formatted == HEADER + DocumentsText(docs[..d])
    {
      formatted := AppendDocument(formatted, docs[d]);
      assert docs[..d + 1][..d] == docs[..d];
      AppendAssoc(HEADER, DocumentsText(docs[..d]), DocumentText(docs[d]));
      d := d + 1;
    }
    assert docs[..d] == docs;
  }

  lemma {:induction false} FieldLinesShowEach(indent: string, fs: seq<ExpenseField>, i: int)
    requires 0 <= i < |fs|
    ensures Contains(FieldLines(indent, fs), FieldLine(indent, fs[i]))
  {
    var init := fs[..|fs| - 1];
    if i == |fs| - 1 {
      ContainsMiddle(FieldLines(indent, init), FieldLine(indent, fs[i]), "");
      assert FieldLines(indent, init) + FieldLine(indent, fs[i]) + "" == FieldLines(indent, fs);
    } else {
      assert init[i] == fs[i];
      FieldLinesShowEach(indent, init, i);
      ContainsExtend(FieldLines(indent, init), FieldLine(indent, fs[i]), FieldLine(indent, fs[|fs| - 1]));
    }
  }

  lemma {:induction false} ItemBlocksShowEach(items: seq<LineItem>, k: int, i: int)
    requires 0 <= k < |items| && 0 <= i < |items[k].expenseFields|
    ensures Contains(ItemBlocks(items), FieldLine("  ", items[k].expenseFields[i]))
  {
    var init := items[..|items| - 1];
    var line := FieldLine("  ", items[k].expenseFields[i]);
    if k == |items| - 1 {
      FieldLinesShowEach("  ", items[k].expenseFields, i);
      ContainsExtend(FieldLines("  ", items[k].expenseFields), line, ItemBlocks(init) + ItemHeading(|items|));
    } else {
      assert init[k] == items[k];
      ItemBlocksShowEach(init, k, i);
      ContainsExtend(ItemBlocks(init), line, ItemHeading(|items|));
      ContainsExtend(ItemBlocks(init) + ItemHeading(|items|), line, FieldLines("  ", items[|items| - 1].expenseFields));
    }
  }

  lemma {:induction false} GroupsTextShowsEach(groups: seq<LineItemGroup>, g: int, k: int, i: int)
    requires 0 <= g < |groups| && 0 <= k < |groups[g].lineItems|
    requires 0 <= i < |groups[g].lineItems[k].expenseFields|
    ensures Contains(GroupsText(groups), FieldLine("  ", groups[g].lineItems[k].expenseFields[i]))
  {
    var init := groups[..|groups| - 1];
    var line := FieldLine("  ", groups[g].lineItems[k].expenseFields[i]);
    if g == |groups| - 1 {
      ItemBlocksShowEach(groups[g].lineItems, k, i);
      ContainsExtend(ItemBlocks(groups[g].lineItems), line, GroupsText(init));
    } else {
      assert init[g] == groups[g];
      GroupsTextShowsEach(init, g, k, i);
      ContainsExtend(GroupsText(init), line, ItemBlocks(groups[|groups| - 1].lineItems));
    }
  }

  lemma {:induction false} DocumentsTextShowsEach(ds: seq<ExpenseDocument>, j: int)
    requires 0 <= j < |ds|
    ensures Contains(DocumentsText(ds), DocumentText(ds[j]))
  {
    var init := ds[..|ds| - 1];
    if j == |ds| - 1 {
      ContainsMiddle(DocumentsText(init), DocumentText(ds[j]), "");
      assert DocumentsText(init) + DocumentText(ds[j]) + "" == DocumentsText(ds);
    } else {
      assert init[j] == ds[j];
      DocumentsTextShowsEach(init, j);
      ContainsExtend(DocumentsText(init), DocumentText(ds[j]), DocumentText(ds[|ds| - 1]));
    }
  }

  /** Every summary field of every document appears in the formatted text
    * as its own unindented line. */
  lemma SummaryFieldShown(p: OcrPayload, j: int, i: int)
    requires p.expenseDocuments.Some? && 0 <= j < |p.expenseDocuments.value|
    requires 0 <= i < |p.expenseDocuments.value[j].summaryFields|
    ensures Contains(FormattedText(p), FieldLine("", p.expenseDocuments.value[j].summaryFields[i]))
  {
    var ds := p.expenseDocuments.value;
    var d := ds[j];
    var line := FieldLine("", d.summaryFields[i]);
    FieldLinesShowEach("", d.summaryFields, i);
    ContainsExtend(FieldLines("", d.summaryFields), line, "SUMMARY FIELDS:\n");
    ContainsExtend("SUMMARY FIELDS:\n" + FieldLines("", d.summaryFields), line, "\nLINE ITEMS:\n");
    ContainsExtend("SUMMARY FIELDS:\n" + FieldLines("", d.summaryFields) + "\nLINE ITEMS:\n", line, GroupsText(d.lineItemGroups));
    DocumentsTextShowsEach(ds, j);
    ContainsTransitive(DocumentsText(ds), DocumentText(d), line);
    ContainsExtend(DocumentsText(ds), line, HEADER);
  }

  /** Every field of every line item appears in the formatted text as its
    * own line indented by two spaces. */
  lemma LineItemFieldShown(p: OcrPayload, j: int, g: int, k: int, i: int)
    requires p.expenseDocuments.Some? && 0 <= j < |p.expenseDocuments.value|
    requires 0 <= g < |p.expenseDocuments.value[j].lineItemGroups|
    requires 0 <= k < |p.expenseDocuments.value[j].lineItemGroups[g].lineItems|
    requires 0 <= i < |p.expenseDocuments.value[j].lineItemGroups[g].lineItems[k].expenseFields|
    ensures Contains(FormattedText(p), FieldLine("  ", p.expenseDocuments.value[j].lineItemGroups[g].lineItems[k].expenseFields[i]))
  {
    var ds := p.expenseDocuments.value;
    var d := ds[j];
    var line := FieldLine("  ", d.lineItemGroups[g].lineItems[k].expenseFields[i]);
    GroupsTextShowsEach(d.lineItemGroups, g, k, i);
    ContainsExtend(GroupsText(d.lineItemGroups), line, "SUMMARY FIELDS:\n" + FieldLines("", d.summaryFields) + "\nLINE ITEMS:\n");
    DocumentsTextShowsEach(ds, j);
    ContainsTransitive(DocumentsText(ds), DocumentText(d), line);
    ContainsExtend(DocumentsText(ds), line, HEADER);
  }

  /** An absent or empty `ExpenseDocuments` list leaves only the header. */
  lemma NoDocumentsGiveHeaderOnly(p: OcrPayload)
    requires p.expenseDocuments.None? || p.expenseDocuments == Some([])
    ensures FormattedText(p) == HEADER
  {
    assert HEADER + "" == HEADER;
  }
}
