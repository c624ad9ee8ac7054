/**
 * The stock screen: the product form (edit, cancel, save with its
 * validation and number clean-up, create or update decided by the id) and
 * the spreadsheet import, which maps each named row to one product upsert.
 */
module Admin {
  import opened Base
  import opened Js
  import opened Types
  import opened Menu

  /** The product record handed to the upsert; `id` present means update, absent means create. */
  datatype ProductPayload = ProductPayload(id: Option<string>, nome: string, preco: JsNumber, custo: JsNumber, qtd: JsNumber)

  /** `x || 0` on a number: NaN (and 0) become 0. */
  function OrZero(n: JsNumber): (r: JsNumber)
    ensures r.Num?
    ensures n.Num? ==> r == n
  {
    if n.NaN? then Num(0) else n
  }

  /** `Number(text.replace(',', '.'))`: a decimal comma is read as a point (only the first one). */
  function DecimalField(text: string): (n: JsNumber)
    ensures ',' !in text ==> n == ParseNumber(text)
    ensures ',' in text ==> n == ParseNumber(text[IndexOf(text, ',') := '.'])
  {
    ParseNumber(ReplaceFirst(text, ',', '.'))
  }

  /** The text fields of the form. */
  datatype FormFields = FormFields(editingId: Option<string>, nome: string, preco: string, custo: string, qtd: string)

  const EmptyForm := FormFields(None, "", "", "", "")

  /** The id goes in the payload only when it is set and not blank. */
  function PayloadId(editingId: Option<string>): (id: Option<string>)
    ensures id.Some? <==> editingId.Some? && Trim(editingId.value) != ""
    ensures id.Some? ==> id == editingId
  {
    if editingId.Some? && editingId.value != "" && Trim(editingId.value) != "" then editingId else None
  }

  /**
   * The payload `handleSaveProduct` sends: refused when the trimmed name or
   * the price text is empty; otherwise the trimmed name, the price as read,
   * the cost as read or 0, and the whole quantity `parseInt` reads or 0.
   */
  function SavePayload(f: FormFields): (r: Option<ProductPayload>)
    ensures r.None? <==> Trim(f.nome) == "" || f.preco == ""
    ensures r.Some? ==> r.value.nome == Trim(f.nome) && r.value.id == PayloadId(f.editingId)
    ensures r.Some? ==> r.value.preco == DecimalField(f.preco) && r.value.custo == OrZero(DecimalField(f.custo))
    ensures r.Some? ==> r.value.qtd == Num(ParseInt(f.qtd).GetOr(0) * 100)
  {
    if Trim(f.nome) == "" || f.preco == "" then None
    else
      var cleanPreco := DecimalField(f.preco);
      var cleanCusto := OrZero(DecimalField(f.custo));
      var cleanQtd := ParseInt(f.qtd).GetOr(0);
      Some(ProductPayload(PayloadId(f.editingId), Trim(f.nome), cleanPreco, cleanCusto, Num(cleanQtd * 100)))
  }

  /** A name made only of white space (the Zs spaces such as U+3000 included) is refused. */
  lemma SaveRefusesBlankName(f: FormFields)
    requires forall i :: 0 <= i < |f.nome| ==> IsWhiteSpace(f.nome[i])
    ensures SavePayload(f) == None
  {
    TrimEmptyIff(f.nome);
  }

  /** A saved payload is either an update of a non-blank id or a create, never both. */
  lemma SaveCreatesOrUpdates(f: FormFields)
    requires SavePayload(f).Some?
    ensures SavePayload(f).value.id.Some? ==> f.editingId == SavePayload(f).value.id && Trim(f.editingId.value) != ""
    ensures SavePayload(f).value.id.None? ==> f.editingId.None? || Trim(f.editingId.value) == ""
  {
  }

  /** The form as `handleEdit(p)` fills it: the id and the product's numbers printed by `toString`. */
  function EditFields(p: Product): FormFields
  {
    FormFields(Some(p.id), p.nome, NumberToString(p.preco), NumberToString(p.custo), IntToString(p.qtd))
  }

  /** `Number` reads back a printed amount even after the comma clean-up, which finds no comma in it. */
  lemma DecimalFieldOfPrinted(v: int)
    ensures DecimalField(NumberToString(v)) == Num(v)
  {
    NumberToStringChars(v);
    NoCommaUnchanged(NumberToString(v));
    ParseNumberToString(v);
  }

  lemma NoCommaUnchanged(s: string)
    requires forall i :: 0 <= i < |s| ==> IsNumeralChar(s[i])
    ensures ReplaceFirst(s, ',', '.') == s
  {
    assert ',' !in s;
  }

  /**
   * Opening a product for editing and saving it untouched sends the same
   * product back, as an update when its id is not blank.
   */
  lemma SaveUnchangedEdit(p: Product)
    requires Trim(p.nome) == p.nome && p.nome != ""
    ensures SavePayload(EditFields(p))
         == Some(ProductPayload(PayloadId(Some(p.id)), p.nome, Num(p.preco), Num(p.custo), Num(p.qtd * 100)))
  {
    NumberToStringChars(p.preco);
    DecimalFieldOfPrinted(p.preco);
    DecimalFieldOfPrinted(p.custo);
    ParseIntRoundTrip(p.qtd);
  }

  /** The state of the stock screen's form. */
  class AdminForm {
    var showForm: bool
    var editingId: Option<string>
    var nome: string
    var preco: string
    var custo: string
    var qtd: string
    var search: string

    constructor ()
      ensures Fields() == EmptyForm && !showForm && search == ""
    {
      showForm, editingId := false, None;
      nome, preco, custo, qtd := "", "", "", "";
      search := "";
    }

    function Fields(): FormFields
      reads this
    {
      FormFields(editingId, nome, preco, custo, qtd)
    }

    /** The product list under the search box. */
    function Listed(products: seq<Product>): (r: seq<Product>)
      reads this
      ensures forall i :: 0 <= i < |r| ==> r[i] in products && NameMatches(r[i], search)
      ensures forall i :: 0 <= i < |products| && NameMatches(products[i], search) ==> products[i] in r
      ensures search == "" ==> r == products
    {
      EmptySearchListsAll(products);
      FilteredProducts(products, search)
    }

    /** `handleEdit(p)`: the form opens on the product. */
    method HandleEdit(p: Product)
      modifies this`showForm, this`editingId, this`nome, this`preco, this`custo, this`qtd
      ensures Fields() == EditFields(p) && showForm
    {
      editingId := Some(p.id);
      nome := p.nome;
      preco := NumberToString(p.preco);
      custo := NumberToString(p.custo);
      qtd := IntToString(p.qtd);
      showForm := true;
    }

    /** `handleCancel`: no product being edited, the form hidden and its four fields empty. */
    method HandleCancel()
      modifies this`showForm, this`editingId, this`nome, this`preco, this`custo, this`qtd
      ensures Fields() == EmptyForm && !showForm
    {
      editingId := None;
      showForm := false;
      nome, preco, custo, qtd := "", "", "", "";
    }

    /** `handleSaveProduct`: the payload, then the form is reset; a refused form stays as it was. */
    method HandleSaveProduct() returns (payload: Option<ProductPayload>)
      modifies this`showForm, this`editingId, this`nome, this`preco, this`custo, this`qtd
      ensures payload == SavePayload(old(Fields()))
      ensures payload.None? ==> Fields() == old(Fields()) && showForm == old(showForm)
      ensures payload.Some? ==> Fields() == EmptyForm && !showForm
    {
      payload := SavePayload(Fields());
      if payload.Some? {
        HandleCancel();
      }
    }
  }

  // ---------------------------------------------------------------------
  // Spreadsheet import

  /** A spreadsheet cell as the sheet reader returns it. */
  datatype Cell = Text(text: string) | Number(number: JsNumber)

  /** A row: column name to cell; a missing column is `undefined`. */
  type Row = map<string, Cell>

  predicate Truthy(c: Cell)
  {
    match c
    case Text(s) => s != ""
    case Number(n) => n.Num? && n.hundredths != 0
  }

  /** `row[key]` is present and truthy. */
  predicate Has(row: Row, key: string)
  {
    key in row && Truthy(row[key])
  }

  /** `row[first] || row[second] || 0` */
  function Fallback(row: Row, first: string, second: string): (c: Cell)
    ensures Has(row, first) ==> c == row[first]
    ensures !Has(row, first) && Has(row, second) ==> c == row[second]
    ensures !Has(row, first) && !Has(row, second) ==> c == Number(Num(0))
  {
    if Has(row, first) then row[first] else if Has(row, second) then row[second] else Number(Num(0))
  }

  /** `String(c)` */
  function ToText(c: Cell): string
  {
    match c
    case Text(s) => s
    case Number(Num(h)) => NumberToString(h)
    case Number(NaN) => "NaN"
  }

  /** `Number(c)` */
  function ToNumber(c: Cell): JsNumber
  {
    match c
    case Text(s) => ParseNumber(s)
    case Number(n) => n
  }

  /** A row is imported when it has a `nome` or a `Nome`. */
  predicate HasName(row: Row)
  {
    Has(row, "nome") || Has(row, "Nome")
  }

  /** The upsert for one spreadsheet row: never an id, so always a create. */
  function RowPayload(row: Row): (p: ProductPayload)
    requires HasName(row)
    ensures p.id == None
    ensures p.nome == Trim(ToText(if Has(row, "nome") then row["nome"] else row["Nome"]))
    ensures p.preco == ToNumber(Fallback(row, "preco", "Pre\U{E7}o"))
    ensures p.custo == ToNumber(Fallback(row, "custo", "Custo"))
    ensures p.qtd == ToNumber(Fallback(row, "qtd", "Quantidade"))
  {
    var name := Fallback(row, "nome", "Nome");
    ProductPayload(
      None,
      Trim(ToText(name)),
      ToNumber(Fallback(row, "preco", "Pre\U{E7}o")),
      ToNumber(Fallback(row, "custo", "Custo")),
      ToNumber(Fallback(row, "qtd", "Quantidade")))
  }

  /** A row with no usable price, cost or quantity column gets 0 for it. */
  lemma RowPayloadDefaults(row: Row)
    requires HasName(row)
    ensures !Has(row, "preco") && !Has(row, "Pre\U{E7}o") ==> RowPayload(row).preco == Num(0)
    ensures !Has(row, "custo") && !Has(row, "Custo") ==> RowPayload(row).custo == Num(0)
    ensures !Has(row, "qtd") && !Has(row, "Quantidade") ==> RowPayload(row).qtd == Num(0)
  {
  }

  /** The upserts an import issues, in row order, folded from the left. */
  function ImportPayloads(rows: seq<Row>): seq<ProductPayload>
  {
    if rows == [] then []
    else
      var last := rows[|rows| - 1];
      ImportPayloads(rows[..|rows| - 1]) + (if HasName(last) then [RowPayload(last)] else [])
  }

  function NamedCount(rows: seq<Row>): nat
  {
    if rows == [] then 0 else NamedCount(rows[..|rows| - 1]) + (if HasName(rows[|rows| - 1]) then 1 else 0)
  }

  /** `handleImportExcel`'s loop: one upsert per named row, in order. */
  method ImportRows(rows: seq<Row>) returns (upserts: seq<ProductPayload>)
    ensures upserts == ImportPayloads(rows)
  {
    upserts := [];
    for i := 0 to |rows|
      invariant upserts == ImportPayloads(rows[..i])
    {
      var item := rows[i];
      assert rows[..i + 1][..i] == rows[..i];
      if Has(item, "nome") || Has(item, "Nome") {
        upserts := upserts + [RowPayload(item)];
      }
    }
    assert rows[..|rows|] == rows;
  }

  /** An import issues exactly one upsert per named row, each a create. */
  lemma {:induction false} ImportPayloadsShape(rows: seq<Row>)
    ensures |ImportPayloads(rows)| == NamedCount(rows)
    ensures forall k :: 0 <= k < |ImportPayloads(rows)| ==> ImportPayloads(rows)[k].id == None
  {
    if rows != [] {
      ImportPayloadsShape(rows[..|rows| - 1]);
    }
  }

  /** Importing two sheets one after the other issues the upserts of each in turn. */
  lemma {:induction false} ImportPayloadsAppend(a: seq<Row>, b: seq<Row>)
    ensures ImportPayloads(a + b) == ImportPayloads(a) + ImportPayloads(b)
    decreases |b|
  {
    if b == [] {
      assert a + b == a;
    } else {
      var c := b[..|b| - 1];
      assert (a + b)[..|a + b| - 1] == a + c;
      ImportPayloadsAppend(a, c);
    }
  }

  /** Rows without a name issue nothing. */
  lemma {:induction false} ImportSkipsNameless(rows: seq<Row>)
    requires forall k :: 0 <= k < |rows| ==> !HasName(rows[k])
    ensures ImportPayloads(rows) == []
  {
    if rows != [] {
      ImportSkipsNameless(rows[..|rows| - 1]);
    }
  }
}
