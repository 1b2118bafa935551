/** The loan history pager: page, row and byte budgets around an untrusted paginated
    list whose rows are kept as they came. */
module Pager {
  import opened Options
  import opened Pence

  const PAGE_SIZE := 200
  const MAX_PAGES := 20
  const MAX_ROWS := 4000
  const MAX_BYTES: int := 16 * 1024 * 1024

  type byte = b: int | 0 <= b < 256

  const LT: byte := 0x3c
  const GT: byte := 0x3e
  const AMP: byte := 0x26
  const QUOTE: byte := 0x22
  const BACKSLASH: byte := 0x5c
  const COMMA: byte := 0x2c
  const OPEN: byte := 0x5b
  const CLOSE: byte := 0x5d

  /** A row as received, and the identity it parses to, if any. */
  datatype Row = Row(bytes: seq<byte>, id: Option<string>)

  datatype Item = Good(row: Row) | Bad

  /** One response; `closed` says that the array ended properly. */
  datatype Page = Failed | NotArray | Listed(items: seq<Item>, closed: bool)

  datatype Mode = Outside | Inside | Escaped

  // --------------------------------------------------------------- the encoding

  function NextMode(mode: Mode, b: byte): Mode {
    match mode
    case Outside => if b == QUOTE then Inside else Outside
    case Inside => if b == QUOTE then Outside else if b == BACKSLASH then Escaped else Inside
    case Escaped => Inside
  }

  predicate Html(b: byte) { b == LT || b == GT || b == AMP }

  predicate Space(b: byte) { b == 0x20 || b == 0x09 || b == 0x0a || b == 0x0d }

  // The three bytes of U+2028 or U+2029.
  predicate Separator(row: seq<byte>, i: nat) {
    i + 2 < |row| && row[i] == 0xe2 && row[i + 1] == 0x80 && (row[i + 2] == 0xa8 || row[i + 2] == 0xa9)
  }

  function HtmlEscape(b: byte): seq<byte> {
    [BACKSLASH, 0x75, 0x30, 0x30] + if b == AMP then [0x32, 0x36] else [0x33, if b == LT then 0x63 else 0x65]
  }

  function SeparatorEscape(last: byte): seq<byte> {
    [BACKSLASH, 0x75, 0x32, 0x30, 0x32, if last == 0xa8 then 0x38 else 0x39]
  }

  /** What encoding makes of a raw row from byte i on: blanks between tokens go, and
      markup characters and line separators are escaped. */
  function Marshal(row: seq<byte>, i: nat, mode: Mode): seq<byte>
    requires i <= |row|
    decreases |row| - i
  {
    if i == |row| then []
    else if Html(row[i]) then HtmlEscape(row[i]) + Marshal(row, i + 1, NextMode(mode, row[i]))
    else if Separator(row, i) then
      SeparatorEscape(row[i + 2]) + Marshal(row, i + 3, if mode.Escaped? then Inside else mode)
    else if mode.Outside? && Space(row[i]) then Marshal(row, i + 1, mode)
    else [row[i]] + Marshal(row, i + 1, NextMode(mode, row[i]))
  }

  function Encoded(row: Row): seq<byte> { Marshal(row.bytes, 0, Outside) }

  function Joined(rows: seq<Row>): seq<byte> {
    if rows == [] then []
    else
      var front := rows[..|rows| - 1];
      Joined(front) + (if front == [] then [] else [COMMA]) + Encoded(rows[|rows| - 1])
  }

  function EncodedArray(rows: seq<Row>): seq<byte> { [OPEN] + Joined(rows) + [CLOSE] }

  // --------------------------------------------------------------- the charge

  function ExtraAt(row: seq<byte>, i: nat): int
    requires i < |row|
  {
    if Html(row[i]) then 5 else if Separator(row, i) then 3 else 0
  }

  /** The growth charged for the first n bytes. */
  function Extra(row: seq<byte>, n: nat): nat
    requires n <= |row|
  {
    if n == 0 then 0 else Extra(row, n - 1) + ExtraAt(row, n - 1)
  }

  lemma {:induction false} ExtraGrows(row: seq<byte>, i: nat, j: nat)
    requires i <= j <= |row|
    ensures Extra(row, i) <= Extra(row, j)
    decreases j - i
  {
    if i < j {
      ExtraGrows(row, i, j - 1);
    }
  }

  /** The charge covers the encoding, and exactly so for a row without blanks. */
  lemma {:induction false} MarshalFits(row: seq<byte>, i: nat, mode: Mode)
    requires i <= |row|
    ensures |Marshal(row, i, mode)| <= |row| - i + Extra(row, |row|) - Extra(row, i)
    ensures (forall b <- row :: !Space(b)) ==> |Marshal(row, i, mode)| == |row| - i + Extra(row, |row|) - Extra(row, i)
    decreases |row| - i
  {
    if i < |row| {
      if Html(row[i]) {
        MarshalFits(row, i + 1, NextMode(mode, row[i]));
      } else if Separator(row, i) {
        assert ExtraAt(row, i + 1) == 0 && ExtraAt(row, i + 2) == 0;
        assert Extra(row, i + 3) == Extra(row, i) + 3;
        MarshalFits(row, i + 3, if mode.Escaped? then Inside else mode);
      } else {
        MarshalFits(row, i + 1, if mode.Outside? && Space(row[i]) then mode else NextMode(mode, row[i]));
      }
    }
  }

  function RowCharge(row: Row): nat { |row.bytes| + Extra(row.bytes, |row.bytes|) }

  function Charge(rows: seq<Row>): nat {
    if rows == [] then 2
    else Charge(rows[..|rows| - 1]) + RowCharge(rows[|rows| - 1]) + if |rows| > 1 then 1 else 0
  }

  lemma {:induction false} ChargeCovers(rows: seq<Row>)
    ensures |EncodedArray(rows)| == |Joined(rows)| + 2 <= Charge(rows)
    decreases |rows|
  {
    if rows != [] {
      ChargeCovers(rows[..|rows| - 1]);
      MarshalFits(rows[|rows| - 1].bytes, 0, Outside);
    }
  }

  lemma {:induction false} ChargeGrows(rows: seq<Row>, n: nat)
    requires n <= |rows|
    ensures Charge(rows[..n]) <= Charge(rows)
    decreases |rows| - n
  {
    if n == |rows| {
      assert rows[..n] == rows;
    } else {
      assert rows[..n + 1][..n] == rows[..n];
      ChargeGrows(rows, n + 1);
    }
  }

  // --------------------------------------------------------------- what is capturable

  predicate Distinct(rows: seq<Row>) {
    forall i, j :: 0 <= i < j < |rows| && rows[i].id.Some? ==> rows[i].id != rows[j].id
  }

  predicate WellFormed(page: Page) { page.Listed? && page.closed && forall item <- page.items :: item.Good? }

  function RowsOf(page: Page): seq<Row>
    requires WellFormed(page)
  {
    seq(|page.items|, i requires 0 <= i < |page.items| => page.items[i].row)
  }

  /** The last identity of a page is the cursor of the next. */
  predicate HasCursor(page: Page) { page.Listed? && exists item <- page.items :: item.Good? && item.row.id.Some? }

  predicate FullPages(pages: seq<Page>, n: nat)
    requires n <= |pages|
  {
    forall i :: 0 <= i < n ==> WellFormed(pages[i]) && |pages[i].items| == PAGE_SIZE && HasCursor(pages[i])
  }

  function AllRows(pages: seq<Page>, n: nat): seq<Row>
    requires n <= |pages| && forall i :: 0 <= i < n ==> WellFormed(pages[i])
  {
    if n == 0 then [] else AllRows(pages, n - 1) + RowsOf(pages[n - 1])
  }

  /** The n-th response is the short last page of a list within every budget. */
  ghost predicate Capturable(pages: seq<Page>, n: nat) {
    && 0 < n <= MAX_PAGES && n <= |pages|
    && FullPages(pages, n - 1)
    && WellFormed(pages[n - 1]) && |pages[n - 1].items| < PAGE_SIZE
    && Distinct(AllRows(pages, n))
    && Charge(AllRows(pages, n)) <= MAX_BYTES
  }

  lemma {:induction false} AllRowsPrefix(pages: seq<Page>, m: nat, n: nat)
    requires m <= n <= |pages| && forall i :: 0 <= i < n ==> WellFormed(pages[i])
    ensures AllRows(pages, m) <= AllRows(pages, n)
    decreases n - m
  {
    if m < n {
      AllRowsPrefix(pages, m, n - 1);
    }
  }

  lemma PrefixWithin(a: seq<Row>, b: seq<Row>)
    requires a <= b && Distinct(b) && Charge(b) <= MAX_BYTES
    ensures Distinct(a) && Charge(a) <= MAX_BYTES
  {
    assert a == b[..|a|];
    ChargeGrows(b, |a|);
  }

  // --------------------------------------------------------------- the pager

  /** Charges one row, its separator and its escapes; no budget ever goes negative. */
  method ChargeRow(row: Row, separated: bool, encodedBytes: int) returns (ok: bool, rowBytes: int)
    requires 0 <= encodedBytes <= MAX_BYTES
    ensures var charge := RowCharge(row) + if separated then 1 else 0;
            && (ok <==> encodedBytes + charge <= MAX_BYTES)
            && (ok ==> rowBytes == charge)
  {
    rowBytes := |row.bytes|;
    if separated {
      rowBytes := rowBytes + 1;
    }
    ExtraGrows(row.bytes, 0, |row.bytes|);
    if rowBytes > MAX_BYTES - encodedBytes {
      return false, rowBytes;
    }
    for i := 0 to |row.bytes|
      invariant rowBytes == |row.bytes| + Extra(row.bytes, i) + if separated then 1 else 0
      invariant 0 <= MAX_BYTES - encodedBytes - rowBytes
    {
      var extra := 0;
      if row.bytes[i] == LT || row.bytes[i] == GT || row.bytes[i] == AMP {
        extra := 5;
      } else if row.bytes[i] == 0xe2 {
        if i + 2 < |row.bytes| && row.bytes[i + 1] == 0x80 && (row.bytes[i + 2] == 0xa8 || row.bytes[i + 2] == 0xa9) {
          extra := 3;
        }
      }
      assert extra == ExtraAt(row.bytes, i);
      if extra > MAX_BYTES - encodedBytes - rowBytes {
        ExtraGrows(row.bytes, i + 1, |row.bytes|);
        return false, rowBytes;
      }
      rowBytes := rowBytes + extra;
    }
    ok := true;
  }

  /** The rows read so far, their identities and what they are charged. */
  datatype Capture = Capture(rows: seq<Row>, seen: set<string>, encodedBytes: int)

  ghost predicate Within(c: Capture) {
    && Distinct(c.rows) && c.encodedBytes == Charge(c.rows) <= MAX_BYTES && |c.rows| <= MAX_ROWS
    && forall id :: id in c.seen <==> exists i :: 0 <= i < |c.rows| && c.rows[i].id == Some(id)
  }

  /** One more row, unless it exceeds a budget or repeats an identity. */
  method ReadRow(c: Capture, row: Row) returns (ok: bool, next: Capture)
    requires Within(c) && |c.rows| < MAX_ROWS
    ensures ok <==> Distinct(c.rows + [row]) && Charge(c.rows + [row]) <= MAX_BYTES
    ensures ok ==> Within(next) && next.rows == c.rows + [row]
  {
    var rows := c.rows + [row];
    assert rows[..|rows| - 1] == c.rows;
    var fits, rowBytes := ChargeRow(row, c.rows != [], c.encodedBytes);
    next := c;
    if !fits {
      return false, c;
    }
    if row.id.Some? && row.id.value in c.seen {
      var i :| 0 <= i < |c.rows| && c.rows[i].id == row.id;
      assert rows[i].id == rows[|c.rows|].id;
      return false, c;
    }
    next := Capture(rows, if row.id.Some? then c.seen + {row.id.value} else c.seen, c.encodedBytes + rowBytes);
    forall id ensures id in next.seen <==> exists i :: 0 <= i < |rows| && rows[i].id == Some(id) {
      if id in c.seen {
        var i :| 0 <= i < |c.rows| && c.rows[i].id == Some(id);
        assert rows[i].id == Some(id);
      } else if row.id == Some(id) {
        assert rows[|c.rows|].id == Some(id);
      }
    }
    ok := true;
  }

  predicate PageFits(c: Capture, page: Page) {
    && WellFormed(page) && |page.items| <= PAGE_SIZE && |c.rows| + |page.items| <= MAX_ROWS
    && Distinct(c.rows + RowsOf(page)) && Charge(c.rows + RowsOf(page)) <= MAX_BYTES
  }

  function ItemRows(items: seq<Item>, n: nat): seq<Row>
    requires n <= |items| && forall i :: 0 <= i < n ==> items[i].Good?
  {
    seq(n, i requires 0 <= i < n => items[i].row)
  }

  lemma PartFits(c: Capture, page: Page, n: nat)
    requires page.Listed? && n <= |page.items| && forall i :: 0 <= i < n ==> page.items[i].Good?
    requires PageFits(c, page)
    ensures Distinct(c.rows + ItemRows(page.items, n)) && Charge(c.rows + ItemRows(page.items, n)) <= MAX_BYTES
  {
    var part, whole := c.rows + ItemRows(page.items, n), c.rows + RowsOf(page);
    assert part == whole[..|part|];
    PrefixWithin(part, whole);
  }

  /** One page, with the cursor its last identity gives. */
  method ReadPage(c: Capture, page: Page) returns (ok: bool, next: Capture, cursor: Option<string>)
    requires Within(c)
    ensures ok <==> PageFits(c, page)
    ensures ok ==> Within(next) && next.rows == c.rows + RowsOf(page) && (cursor.Some? <==> HasCursor(page))
  {
    next, cursor := c, None;
    if !page.Listed? {
      return false, c, None;
    }
    for i := 0 to |page.items|
      invariant ItemsRead(c, page, i, next)
      invariant cursor.Some? <==> exists k :: 0 <= k < i && page.items[k].Good? && page.items[k].row.id.Some?
    {
      var read;
      read, next := ReadItem(c, page, i, next);
      if !read {
        return false, c, None;
      }
      if page.items[i].row.id.Some? {
        cursor := page.items[i].row.id;
      }
    }
    AllRead(c, page, next);
    ok := page.closed;
  }

  ghost predicate ItemsRead(c: Capture, page: Page, n: nat, next: Capture) {
    && page.Listed? && n <= |page.items| && n <= PAGE_SIZE && |c.rows| + n <= MAX_ROWS
    && (forall k :: 0 <= k < n ==> page.items[k].Good?)
    && Within(next) && next.rows == c.rows + ItemRows(page.items, n)
  }

  lemma AllRead(c: Capture, page: Page, next: Capture)
    requires page.Listed? && ItemsRead(c, page, |page.items|, next)
    ensures PageFits(c, page) <==> page.closed
    ensures page.closed ==> next.rows == c.rows + RowsOf(page)
  {
    assert page.closed ==> RowsOf(page) == ItemRows(page.items, |page.items|);
  }

  method ReadItem(c: Capture, page: Page, i: nat, last: Capture) returns (ok: bool, next: Capture)
    requires page.Listed? && i < |page.items| && ItemsRead(c, page, i, last)
    ensures ok ==> ItemsRead(c, page, i + 1, next)
    ensures !ok ==> !PageFits(c, page)
  {
    if |last.rows| >= MAX_ROWS || i >= PAGE_SIZE || page.items[i].Bad? {
      BadItem(c, page, i, last);
      return false, last;
    }
    var row := page.items[i].row;
    NextRows(c, page, i, last);
    ok, next := ReadRow(last, row);
    if !ok && PageFits(c, page) {
      PartFits(c, page, i + 1);
    }
  }

  lemma BadItem(c: Capture, page: Page, i: nat, last: Capture)
    requires page.Listed? && i < |page.items| && ItemsRead(c, page, i, last)
    requires |last.rows| >= MAX_ROWS || i >= PAGE_SIZE || page.items[i].Bad?
    ensures !PageFits(c, page)
  {
    assert |last.rows| == |c.rows| + i;
    assert page.items[i] in page.items;
  }

  lemma NextRows(c: Capture, page: Page, i: nat, last: Capture)
    requires page.Listed? && i < |page.items| && ItemsRead(c, page, i, last) && page.items[i].Good?
    ensures last.rows + [page.items[i].row] == c.rows + ItemRows(page.items, i + 1)
    ensures |last.rows| == |c.rows| + i
  {
  }

  /** Reads pages until a short one. It succeeds exactly on a list that some page ends
      within every budget, and then returns all of its rows, no identity twice, in an
      array whose encoding fits. */
  method ReadLoanHistoryPages(pages: seq<Page>) returns (captured: Option<seq<Row>>, ghost last: nat)
    ensures captured.None? ==> forall n :: !Capturable(pages, n)
    ensures captured.Some? ==>
              && Capturable(pages, last) && captured.value == AllRows(pages, last)
              && Distinct(captured.value) && |captured.value| < MAX_ROWS
              && |EncodedArray(captured.value)| <= MAX_BYTES
  {
    var c := Capture([], {}, 2);
    for p := 0 to MAX_PAGES
      invariant p <= |pages| && FullPages(pages, p)
      invariant Within(c) && c.rows == AllRows(pages, p) && |c.rows| == p * PAGE_SIZE
    {
      ghost var before := c;
      if p == |pages| {
        NoneEarlier(pages, p);
        return None, p;
      }
      var ok, next, cursor := ReadPage(c, pages[p]);
      if !ok {
        NotFitting(pages, p, before);
        return None, p;
      }
      c := next;
      if |pages[p].items| < PAGE_SIZE {
        EndsHere(pages, p, c);
        return Some(c.rows), p + 1;
      }
      if cursor.None? {
        NotShort(pages, p);
        return None, p;
      }
    }
    NoneEarlier(pages, MAX_PAGES);
    captured, last := None, 0;
  }

  lemma NoneEarlier(pages: seq<Page>, p: nat)
    requires p <= |pages| && FullPages(pages, p) && (p == |pages| || p == MAX_PAGES)
    ensures forall n :: !Capturable(pages, n)
  {
    forall n: nat ensures !Capturable(pages, n) {
      assert 0 < n <= p ==> |pages[n - 1].items| == PAGE_SIZE;
    }
  }

  lemma EndsHere(pages: seq<Page>, p: nat, c: Capture)
    requires p < |pages| && p < MAX_PAGES && FullPages(pages, p)
    requires WellFormed(pages[p]) && |pages[p].items| < PAGE_SIZE
    requires Within(c) && c.rows == AllRows(pages, p) + RowsOf(pages[p])
    ensures Capturable(pages, p + 1) && c.rows == AllRows(pages, p + 1)
    ensures |EncodedArray(c.rows)| <= MAX_BYTES
  {
    ChargeCovers(c.rows);
  }

  lemma NotShort(pages: seq<Page>, p: nat)
    requires p < |pages| && FullPages(pages, p)
    requires WellFormed(pages[p]) && |pages[p].items| == PAGE_SIZE && !HasCursor(pages[p])
    ensures forall n :: !Capturable(pages, n)
  {
    forall n: nat ensures !Capturable(pages, n) {
      assert 0 < n <= p ==> |pages[n - 1].items| == PAGE_SIZE;
    }
  }

  lemma NotFitting(pages: seq<Page>, p: nat, c: Capture)
    requires p < |pages| && p < MAX_PAGES && FullPages(pages, p)
    requires c.rows == AllRows(pages, p) && |c.rows| == p * PAGE_SIZE && !PageFits(c, pages[p])
    ensures forall n :: !Capturable(pages, n)
  {
    forall n: nat ensures !Capturable(pages, n) {
      assert 0 < n <= p ==> |pages[n - 1].items| == PAGE_SIZE;
      if p < n && Capturable(pages, n) {
        EarlierPagesFit(pages, p, n);
      }
    }
  }

  lemma AllWellFormed(pages: seq<Page>, n: nat)
    requires Capturable(pages, n)
    ensures forall i :: 0 <= i < n ==> WellFormed(pages[i]) && |pages[i].items| <= PAGE_SIZE
    ensures forall i :: 0 <= i < n - 1 ==> HasCursor(pages[i]) && |pages[i].items| == PAGE_SIZE
  {
  }

  lemma EarlierPagesFit(pages: seq<Page>, p: nat, n: nat)
    requires p < n && Capturable(pages, n)
    ensures FullPages(pages, p) && WellFormed(pages[p]) && |pages[p].items| <= PAGE_SIZE
    ensures Distinct(AllRows(pages, p) + RowsOf(pages[p])) && Charge(AllRows(pages, p) + RowsOf(pages[p])) <= MAX_BYTES
  {
    AllWellFormed(pages, n);
    AllRowsPrefix(pages, p + 1, n);
    PrefixWithin(AllRows(pages, p + 1), AllRows(pages, n));
  }
}
