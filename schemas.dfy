/** The records of api/models/schemas.py: what the language model must return
  * (`LineItemExtraction`, `ReceiptExtraction`, with the merchant-name
  * validator) and the rows of the receipts and line_items tables. Decimal
  * amounts are exact, so they are `real`. */
module Schemas {
  import opened Wrappers
  import opened Uuids

  /** `quantity: int = Field(default=1, ge=1)`. */
  type Quantity = q: int | q >= 1 witness 1

  const DEFAULT_QUANTITY: Quantity := 1

  /** A `datetime.date`. */
  datatype Date = Date(year: int, month: int, day: int)

  datatype LineItemExtraction = LineItemExtraction(
    description: string,
    category: string,
    quantity: Quantity,
    unitPrice: real,
    totalPrice: real)

  /** Every field is required; `lineItems` may be empty. */
  datatype ReceiptExtraction = ReceiptExtraction(
    merchantName: string,
    purchaseDate: Date,
    totalAmount: real,
    taxAmount: real,
    lineItems: seq<LineItemExtraction>)

  // ---------------------------------------------------------------------
  // normalize_merchant: v.strip().title(), on ASCII text.
  // ---------------------------------------------------------------------

  /** The ASCII characters `str.isspace` accepts. */
  predicate IsSpace(c: char)
  {
    c == ' ' || (9 <= c as int <= 13) || (28 <= c as int <= 31)
  }

  predicate IsUpper(c: char) { 'A' <= c <= 'Z' }

  predicate IsLower(c: char) { 'a' <= c <= 'z' }

  /** Cased characters, whose case `title` changes. */
  predicate IsLetter(c: char) { IsUpper(c) || IsLower(c) }

  function ToUpper(c: char): (r: char)
    ensures IsLetter(c) ==> IsUpper(r) && ToLower(r) == ToLower(c)
    ensures !IsLetter(c) ==> r == c
  {
    if IsLower(c) then (c as int - 32) as char else c
  }

  function ToLower(c: char): (r: char)
    ensures IsLetter(c) ==> IsLower(r)
    ensures !IsLetter(c) ==> r == c
  {
    if IsUpper(c) then (c as int + 32) as char else c
  }

  /** `s.lstrip()`: drops the whitespace prefix and nothing else. */
  function LStrip(s: string): (r: string)
    ensures |r| <= |s| && r == s[|s| - |r|..]
    ensures forall k :: 0 <= k < |s| - |r| ==> IsSpace(s[k])
    ensures r != [] ==> !IsSpace(r[0])
  {
    if s != [] && IsSpace(s[0]) then LStrip(s[1..]) else s
  }

  /** `s.rstrip()`: drops the whitespace suffix and nothing else. */
  function RStrip(s: string): (r: string)
    ensures |r| <= |s| && r == s[..|r|]
    ensures forall k :: |r| <= k < |s| ==> IsSpace(s[k])
    ensures r != [] ==> !IsSpace(r[|r| - 1])
  {
    if s != [] && IsSpace(s[|s| - 1]) then RStrip(s[..|s| - 1]) else s
  }

  /** Neither end of `s` is whitespace. */
  predicate IsStripped(s: string)
  {
    s != [] ==> !IsSpace(s[0]) && !IsSpace(s[|s| - 1])
  }

  /** `s` is `r` with the whitespace runs `s[..i]` and `s[i + |r|..]` around it. */
  predicate PaddedAt(s: string, r: string, i: int)
  {
    0 <= i <= |s| - |r| && s[i..i + |r|] == r
    && (forall k :: 0 <= k < i ==> IsSpace(s[k]))
    && (forall k :: i + |r| <= k < |s| ==> IsSpace(s[k]))
  }

  /** `s.strip()`: `s` is the result wrapped in two runs of whitespace. */
  function Strip(s: string): (r: string)
    ensures IsStripped(r)
    ensures exists i :: PaddedAt(s, r, i)
  {
    var l := LStrip(s);
    var r := RStrip(l);
    assert r != [] ==> r[0] == l[0];
    var i := |s| - |l|;
    assert s[i..i + |r|] == r;
    assert PaddedAt(s, r, i);
    r
  }

  /** The character `title` puts at index `i`: a letter is upper-case when
    * it starts a word (no letter before it) and lower-case otherwise. */
  function TitleAt(s: string, i: nat): char
    requires i < |s|
  {
    if !IsLetter(s[i]) then s[i]
    else if i > 0 && IsLetter(s[i - 1]) then ToLower(s[i])
    else ToUpper(s[i])
  }

  /** `s.title()`. */
  function Title(s: string): (r: string)
    ensures |r| == |s|
    ensures forall i :: 0 <= i < |s| ==> r[i] == TitleAt(s, i)
  {
    seq(|s|, i requires 0 <= i < |s| => TitleAt(s, i))
  }

  /** Every word starts with an upper-case letter and continues in lower case. */
  predicate IsTitleCased(s: string)
  {
    forall i :: 0 <= i < |s| && IsLetter(s[i]) ==>
      if i > 0 && IsLetter(s[i - 1]) then IsLower(s[i]) else IsUpper(s[i])
  }

  /** The `normalize_merchant` validator of `ReceiptExtraction`. */
  function NormalizeMerchant(v: string): (r: string)
    ensures IsStripped(r)
    ensures IsTitleCased(r)
    ensures |r| <= |v|
  {
    var s := Strip(v);
    TitleFacts(s);
    Title(s)
  }

  /** `title` changes case only: it keeps letters, whitespace and everything
    * else where they were, and its result is title-cased. */
  lemma TitleFacts(s: string)
    ensures forall i :: 0 <= i < |s| ==> (IsLetter(Title(s)[i]) <==> IsLetter(s[i]))
    ensures forall i :: 0 <= i < |s| ==> (IsSpace(Title(s)[i]) <==> IsSpace(s[i]))
    ensures IsTitleCased(Title(s))
  {
    var t := Title(s);
    forall i | 0 <= i < |s| ensures (IsLetter(t[i]) <==> IsLetter(s[i])) && (IsSpace(t[i]) <==> IsSpace(s[i])) {
    }
  }

  lemma StripOfStripped(s: string)
    requires IsStripped(s)
    ensures Strip(s) == s
  {
  }

  lemma {:induction false} TitleIdempotent(s: string)
    ensures Title(Title(s)) == Title(s)
  {
    var t := Title(s);
    forall i | 0 <= i < |s| ensures Title(t)[i] == t[i] {
      assert IsLetter(t[i]) <==> IsLetter(s[i]);
      assert i > 0 ==> (IsLetter(t[i - 1]) <==> IsLetter(s[i - 1]));
    }
  }

  /** Normalising an already normalised name changes nothing, since `strip`
    * and `title` are each idempotent and `title` keeps whitespace in place. */
  lemma NormalizeMerchantIdempotent(v: string)
    ensures NormalizeMerchant(NormalizeMerchant(v)) == NormalizeMerchant(v)
  {
    var n := NormalizeMerchant(v);
    StripOfStripped(n);
    TitleIdempotent(Strip(v));
  }

  /** The same letters, case aside, as the stripped input. */
  lemma NormalizeMerchantKeepsLetters(v: string)
    ensures |NormalizeMerchant(v)| == |Strip(v)|
    ensures forall i :: 0 <= i < |Strip(v)| ==>
      ToLower(NormalizeMerchant(v)[i]) == ToLower(Strip(v)[i])
  {
  }

  lemma NormalizeMerchantExample()
    ensures NormalizeMerchant(" wAL mart\n") == "Wal Mart"
  {
    var v := " wAL mart\n";
    assert LStrip(v[1..]) == v[1..];
    assert LStrip(v) == v[1..];
    assert RStrip(v[1..][..8]) == "wAL mart";
    assert RStrip(v[1..]) == "wAL mart";
    var t := Title("wAL mart");
    assert t[0] == 'W' && t[1] == 'a' && t[2] == 'l' && t[3] == ' ';
    assert t[4] == 'M' && t[5] == 'a' && t[6] == 'r' && t[7] == 't';
  }

  // ---------------------------------------------------------------------
  // Database records.
  // ---------------------------------------------------------------------

  /** `Receipt.status`. */
  datatype ReceiptStatus = Pending | Complete | ManualReview
  {
    function Name(): string
    {
      match this
      case Pending => "pending"
      case Complete => "complete"
      case ManualReview => "manual_review"
    }
  }

  /** A row of the receipts table (`Receipt`); the extracted fields are NULL
    * until a complete save. */
  datatype ReceiptRow = ReceiptRow(
    id: Uuid,
    imageUrl: string,
    merchantName: Option<string>,
    purchaseDate: Option<Date>,
    totalAmount: Option<real>,
    taxAmount: Option<real>,
    status: ReceiptStatus)

  /** Identifiers of line_items rows; fresh ones stand in for `uuid.uuid4()`. */
  type LineItemId = nat

  /** A row of the line_items table (`LineItem`). */
  datatype LineItemRow = LineItemRow(
    id: LineItemId,
    receiptId: Uuid,
    description: string,
    category: string,
    quantity: int,
    unitPrice: real,
    totalPrice: real)

  /** `UploadResponse`. */
  datatype UploadResponse = UploadResponse(receiptId: string, status: string, message: string)
}
