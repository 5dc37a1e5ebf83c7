/**
 * `load_data` after the sheet has been read: keep and rename the recognised
 * columns, coerce every cell, derive `status` and `valor_total_pago`, and split
 * the rows into the paid and the pending table.
 *
 * Opening the workbook, unlocking the sheet and `read_excel` are outside the
 * model; what they produce is a `Sheet`: the header of each column and its
 * cells, top to bottom. The library parsers (`pd.to_numeric`, `pd.to_datetime`
 * with `dayfirst=True`) are outside too; each filled cell carries what they
 * decided for it.
 */
module Loader {
  import opened Wrappers
  import opened Records
  import opened Masks

  /**
   * A cell as `read_excel` delivers it: empty (NaN), or filled, with the text
   * `astype(str)` gives for it and the outcome of numeric and date parsing
   * (`None` when the parser coerces it to NaN / NaT).
   */
  datatype Cell = Blank | Filled(shown: string, number: Option<real>, date: Option<Timestamp>)

  /** The frame `read_excel` returns: columns by header, all `height` cells long. */
  datatype Sheet = Sheet(columns: map<string, seq<Cell>>, height: nat) {
    ghost predicate Rectangular() {
      forall h :: h in columns ==> |columns[h]| == height
    }
  }

  /** The eleven recognised columns. */
  datatype Column =
    | PaymentDate | Principal | Rm | Counterparty | InvoiceRef | Iof
    | ContractFee | Irrf | Cide | Currency | ForeignAmount
  {
    /** The spreadsheet header the rename map turns into this column. */
    function Header(): string {
      match this
      case PaymentDate => "Data de Pagamento"
      case Principal => "Valor em R$"
      case Rm => "Número do RM"
      case Counterparty => "Correspondente"
      case InvoiceRef => "ND recebida"
      case Iof => "IOF"
      case ContractFee => "TX CONTRATO"
      case Irrf => "IRRF"
      case Cide => "CIDE"
      case Currency => "Moeda"
      case ForeignAmount => "Valor"
    }

    /** The canonical column name after renaming. */
    function Name(): string {
      match this
      case PaymentDate => "data_pagamento"
      case Principal => "valor_principal_rs"
      case Rm => "numero_rm"
      case Counterparty => "correspondente"
      case InvoiceRef => "nd_recebida"
      case Iof => "iof"
      case ContractFee => "tx_contrato"
      case Irrf => "irrf"
      case Cide => "cide"
      case Currency => "moeda"
      case ForeignAmount => "valor_moeda_origem"
    }
  }

  /** The order in which the loader first indexes each column: the numeric loop, then the text columns, then the date. */
  const ReadOrder: seq<Column> :=
    [Principal, Iof, ContractFee, Irrf, Cide, ForeignAmount, Rm, InvoiceRef, Counterparty, Currency, PaymentDate]

  lemma ReadOrderComplete()
    ensures forall c: Column :: c in ReadOrder
  {
    forall c: Column ensures c in ReadOrder {
      match c
      case PaymentDate => assert ReadOrder[10] == c;
      case Principal => assert ReadOrder[0] == c;
      case Rm => assert ReadOrder[6] == c;
      case Counterparty => assert ReadOrder[8] == c;
      case InvoiceRef => assert ReadOrder[7] == c;
      case Iof => assert ReadOrder[1] == c;
      case ContractFee => assert ReadOrder[2] == c;
      case Irrf => assert ReadOrder[3] == c;
      case Cide => assert ReadOrder[4] == c;
      case Currency => assert ReadOrder[9] == c;
      case ForeignAmount => assert ReadOrder[5] == c;
    }
  }

  /** Why a load returns `(None, None)`. */
  datatype LoadError =
    | MissingColumn(column: Column)    // indexing the column raises KeyError
    | AmbiguousColumn(column: Column)  // two headers were renamed onto it

  /**
   * The header that supplies column `c` after renaming: its spreadsheet header,
   * or a header that already is the canonical name; absent or doubled is an error.
   */
  function Resolve(sheet: Sheet, c: Column): (h: Result<string, LoadError>)
    ensures h.Success? <==> (c.Header() in sheet.columns) != (c.Name() in sheet.columns)
    ensures h.Success? ==> h.value in sheet.columns && h.value in {c.Header(), c.Name()}
    ensures h == Failure(MissingColumn(c)) <==> c.Header() !in sheet.columns && c.Name() !in sheet.columns
  {
    var byHeader, byName := c.Header() in sheet.columns, c.Name() in sheet.columns;
    if byHeader && byName then Failure(AmbiguousColumn(c))
    else if byHeader then Success(c.Header())
    else if byName then Success(c.Name())
    else Failure(MissingColumn(c))
  }

  /** Resolves `cols` in order; the first column that cannot be resolved ends the load. */
  function ResolveAll(sheet: Sheet, cols: seq<Column>): (r: Result<map<Column, string>, LoadError>)
    ensures r.Success? <==> forall c :: c in cols ==> Resolve(sheet, c).Success?
    ensures r.Success? ==> forall c :: c in cols ==> c in r.value && Resolve(sheet, c) == Success(r.value[c])
    ensures r.Failure? ==>
      exists i :: 0 <= i < |cols| && Resolve(sheet, cols[i]) == Failure(r.error)
        && forall j :: 0 <= j < i ==> Resolve(sheet, cols[j]).Success?
  {
    if cols == [] then Success(map[])
    else
      match Resolve(sheet, cols[0])
      case Failure(e) => Failure(e)
      case Success(h) =>
        match ResolveAll(sheet, cols[1..])
        case Failure(e) =>
          assert forall j :: 1 <= j < |cols| ==> cols[j] == cols[1..][j - 1];
          Failure(e)
        case Success(rest) =>
          assert forall c :: c in cols ==> c == cols[0] || c in cols[1..];
          Success(rest[cols[0] := h])
  }

  /** Every recognised column is supplied by a header of `sheet`. */
  ghost predicate Fits(sheet: Sheet, layout: map<Column, string>) {
    forall c: Column :: c in layout && layout[c] in sheet.columns
  }

  /** The recognised cells of one row: the frame after `df[cols_to_keep]`. */
  datatype RawRow = RawRow(
    paymentDate: Cell, principal: Cell, rm: Cell, counterparty: Cell, invoiceRef: Cell,
    iof: Cell, contractFee: Cell, irrf: Cell, cide: Cell, currency: Cell, foreignAmount: Cell)

  function RowAt(sheet: Sheet, layout: map<Column, string>, i: nat): RawRow
    requires sheet.Rectangular() && Fits(sheet, layout) && i < sheet.height
  {
    RawRow(CellAt(sheet, layout, PaymentDate, i), CellAt(sheet, layout, Principal, i),
           CellAt(sheet, layout, Rm, i), CellAt(sheet, layout, Counterparty, i),
           CellAt(sheet, layout, InvoiceRef, i), CellAt(sheet, layout, Iof, i),
           CellAt(sheet, layout, ContractFee, i), CellAt(sheet, layout, Irrf, i),
           CellAt(sheet, layout, Cide, i), CellAt(sheet, layout, Currency, i),
           CellAt(sheet, layout, ForeignAmount, i))
  }

  /** Row `i` of the column that supplies `c`. */
  function CellAt(sheet: Sheet, layout: map<Column, string>, c: Column, i: nat): Cell
    requires sheet.Rectangular() && Fits(sheet, layout) && i < sheet.height
  {
    sheet.columns[layout[c]][i]
  }

  /** `pd.to_numeric(errors='coerce').fillna(0)` on one cell. */
  function Number(c: Cell): (v: real)
    ensures c.Filled? && c.number.Some? ==> v == c.number.value
    ensures v != 0.0 ==> c.Filled? && c.number == Some(v)
  {
    if c.Filled? && c.number.Some? then c.number.value else 0.0
  }

  /** `fillna(default)` on one text cell. */
  function TextOr(c: Cell, default: string): (s: string)
    ensures c.Filled? ==> s == c.shown
    ensures s != default ==> c.Filled?
  {
    if c.Blank? then default else c.shown
  }

  /** `pd.to_datetime(errors='coerce', dayfirst=True)` on one cell. */
  function DateOf(c: Cell): (d: Option<Timestamp>)
    ensures c.Filled? ==> d == c.date
    ensures d.Some? ==> c.Filled?
  {
    if c.Blank? then None else c.date
  }

  /** The normalised row: coerced cells plus the derived status and total paid. */
  function Normalize(raw: RawRow): (r: Invoice)
    ensures WellFormed(r)
    ensures r.status == Paid <==> raw.paymentDate.Filled? && raw.paymentDate.date.Some?
  {
    var date := DateOf(raw.paymentDate);
    var principal, iof, contractFee, irrf, cide :=
      Number(raw.principal), Number(raw.iof), Number(raw.contractFee), Number(raw.irrf), Number(raw.cide);
    Invoice(
      date, principal,
      TextOr(raw.rm, "Não informado"),
      TextOr(raw.counterparty, "Não informado"),
      TextOr(raw.invoiceRef, "Não informada"),
      iof, contractFee, irrf, cide,
      TextOr(raw.currency, "N/A"),
      Number(raw.foreignAmount),
      if date.Some? then Paid else Pending,
      principal + iof + contractFee + irrf + cide)
  }

  /**
   * The coercion rules: a missing or unparseable number becomes 0, a missing
   * text cell becomes its column's placeholder, a filled one keeps its text.
   */
  lemma NormalizeCoerces(raw: RawRow)
    ensures var r := Normalize(raw);
      && (raw.principal.Blank? || raw.principal.number.None? ==> r.principal == 0.0)
      && (raw.principal.Filled? && raw.principal.number.Some? ==> r.principal == raw.principal.number.value)
      && (raw.iof.Blank? || raw.iof.number.None? ==> r.iof == 0.0)
      && (raw.iof.Filled? && raw.iof.number.Some? ==> r.iof == raw.iof.number.value)
      && (raw.contractFee.Blank? || raw.contractFee.number.None? ==> r.contractFee == 0.0)
      && (raw.contractFee.Filled? && raw.contractFee.number.Some? ==> r.contractFee == raw.contractFee.number.value)
      && (raw.irrf.Blank? || raw.irrf.number.None? ==> r.irrf == 0.0)
      && (raw.irrf.Filled? && raw.irrf.number.Some? ==> r.irrf == raw.irrf.number.value)
      && (raw.cide.Blank? || raw.cide.number.None? ==> r.cide == 0.0)
      && (raw.cide.Filled? && raw.cide.number.Some? ==> r.cide == raw.cide.number.value)
      && (raw.foreignAmount.Blank? || raw.foreignAmount.number.None? ==> r.foreignAmount == 0.0)
      && (raw.foreignAmount.Filled? && raw.foreignAmount.number.Some? ==>
            r.foreignAmount == raw.foreignAmount.number.value)
      && (raw.rm.Blank? ==> r.rm == "Não informado")
      && (raw.invoiceRef.Blank? ==> r.invoiceRef == "Não informada")
      && (raw.counterparty.Blank? ==> r.counterparty == "Não informado")
      && (raw.currency.Blank? ==> r.currency == "N/A")
      && (raw.rm.Filled? ==> r.rm == raw.rm.shown)
      && (raw.counterparty.Filled? ==> r.counterparty == raw.counterparty.shown)
      && (raw.invoiceRef.Filled? ==> r.invoiceRef == raw.invoiceRef.shown)
      && (raw.currency.Filled? ==> r.currency == raw.currency.shown)
      && (raw.paymentDate.Blank? ==> r.paymentDate.None? && r.status == Pending)
      && (raw.paymentDate.Filled? ==> r.paymentDate == raw.paymentDate.date)
  {
  }

  /** Every row of the sheet, normalised, in sheet order. */
  function Normalized(sheet: Sheet, layout: map<Column, string>): (rows: seq<Invoice>)
    requires sheet.Rectangular() && Fits(sheet, layout)
    ensures |rows| == sheet.height
    ensures forall r :: r in rows ==> WellFormed(r)
  {
    seq(sheet.height, i requires 0 <= i < sheet.height => Normalize(RowAt(sheet, layout, i)))
  }

  datatype Tables = Tables(paid: seq<Invoice>, pending: seq<Invoice>)

  /** What `load_data` returns once the sheet is read: both tables, or the failure. */
  function Load(sheet: Sheet): (r: Result<Tables, LoadError>)
    requires sheet.Rectangular()
    ensures r.Success? <==> ResolveAll(sheet, ReadOrder).Success?
    ensures r.Failure? ==> r.error == ResolveAll(sheet, ReadOrder).error
    ensures r.Success? ==> forall x :: x in r.value.paid ==> x.status == Paid
    ensures r.Success? ==> forall x :: x in r.value.pending ==> x.status == Pending
  {
    match ResolveAll(sheet, ReadOrder)
    case Failure(e) => Failure(e)
    case Success(layout) =>
      ReadOrderComplete();
      var rows := Normalized(sheet, layout);
      Success(Tables(Where(rows, HasStatus(Paid)), Where(rows, HasStatus(Pending))))
  }

  /** One more row lands in exactly one of the two selections, at its end. */
  lemma SplitStep(rows: seq<Invoice>, i: nat)
    requires i < |rows|
    ensures Where(rows[..i + 1], HasStatus(Paid))
      == Where(rows[..i], HasStatus(Paid)) + (if rows[i].status == Paid then [rows[i]] else [])
    ensures Where(rows[..i + 1], HasStatus(Pending))
      == Where(rows[..i], HasStatus(Pending)) + (if rows[i].status == Paid then [] else [rows[i]])
  {
    assert rows[..i + 1] == rows[..i] + [rows[i]];
    WhereSnoc(rows[..i], rows[i], HasStatus(Paid));
    WhereSnoc(rows[..i], rows[i], HasStatus(Pending));
  }

  /** The normalisation pass: one row at a time, each appended to the table its status selects. */
  method SplitRows(sheet: Sheet, layout: map<Column, string>) returns (paid: seq<Invoice>, pending: seq<Invoice>)
    requires sheet.Rectangular() && Fits(sheet, layout)
    ensures paid == Where(Normalized(sheet, layout), HasStatus(Paid))
    ensures pending == Where(Normalized(sheet, layout), HasStatus(Pending))
  {
    ghost var rows := Normalized(sheet, layout);
    paid, pending := [], [];
    var i := 0;
    while i < sheet.height
      invariant i <= sheet.height
      invariant paid == Where(rows[..i], HasStatus(Paid))
      invariant pending == Where(rows[..i], HasStatus(Pending))
    {
      var row := Normalize(RowAt(sheet, layout, i));
      SplitStep(rows, i);
      if row.status == Paid {
        paid := paid + [row];
      } else {
        pending := pending + [row];
      }
      i := i + 1;
    }
    assert rows[..i] == rows;
  }

  /** `load_data` from the read sheet on: locate the columns, then normalise and split the rows. */
  method LoadData(sheet: Sheet) returns (result: Result<Tables, LoadError>)
    requires sheet.Rectangular()
    ensures result == Load(sheet)
  {
    var located := ResolveAll(sheet, ReadOrder);
    if located.Failure? {
      return Failure(located.error);
    }
    ReadOrderComplete();
    var paid, pending := SplitRows(sheet, located.value);
    result := Success(Tables(paid, pending));
  }

  /**
   * A successful load splits the sheet's rows: every row is in exactly one
   * table, the paid table holds exactly the rows with a payment date, and
   * every row's derived columns agree with its cells.
   */
  lemma {:induction false} LoadPartitions(sheet: Sheet)
    requires sheet.Rectangular() && Load(sheet).Success?
    ensures var t := Load(sheet).value;
      && |t.paid| + |t.pending| == sheet.height
      && (forall r :: r in t.paid ==> WellFormed(r) && r.status == Paid && r.paymentDate.Some?)
      && (forall r :: r in t.pending ==> WellFormed(r) && r.status == Pending && r.paymentDate.None?)
  {
    var layout := ResolveAll(sheet, ReadOrder).value;
    ReadOrderComplete();
    var rows := Normalized(sheet, layout);
    var paid, pending := Where(rows, HasStatus(Paid)), Where(rows, HasStatus(Pending));
    assert Load(sheet).value == Tables(paid, pending);
    StatusPartition(rows);
    SplitShapes(rows);
  }

  lemma SplitShapes(rows: seq<Invoice>)
    requires forall r :: r in rows ==> WellFormed(r)
    ensures forall r :: r in Where(rows, HasStatus(Paid)) ==> WellFormed(r) && r.status == Paid && r.paymentDate.Some?
    ensures forall r :: r in Where(rows, HasStatus(Pending)) ==> WellFormed(r) && r.status == Pending && r.paymentDate.None?
  {
  }

  /** The load fails exactly when some recognised column is missing (or doubled). */
  lemma LoadFailsOnlyOnColumns(sheet: Sheet)
    requires sheet.Rectangular()
    ensures Load(sheet).Failure? <==> exists c: Column :: Resolve(sheet, c).Failure?
    ensures Load(sheet).Failure? ==> exists c: Column :: Resolve(sheet, c) == Failure(Load(sheet).error)
  {
    ReadOrderComplete();
  }
}
