/** The product validators. Each collects error messages into a list in a
    fixed order (name, article number, price) and, when the list is not
    empty, rejects the product with the messages joined by ", ". The
    service's own validator looks for duplicates among the products of the
    DTO's tenant; the older variant kept beside the tests looks among all
    products. Both are the same methods here, told apart by a `Scoping`. */
module ProductValidation {
  import opened Wrappers
  import opened JavaText

  /** A stored product as the validators see it. Names and article numbers
      are non-null columns; the tenant id may be null. */
  datatype ProductRow = ProductRow(id: string, name: string, articleNumber: string, priceCents: int, tenantId: Option<string>)

  datatype ProductToCreateDto = ProductToCreateDto(
    name: Option<string>, articleNumber: Option<string>, priceCents: int, tenantId: Option<string>)

  datatype ProductToUpdateDto = ProductToUpdateDto(
    id: string, name: Option<string>, articleNumber: Option<string>, priceCents: int, tenantId: Option<string>)

  /** Which rows a uniqueness query looks at. A derived query binds a null
      tenant id as `IS NULL`, so a null tenant matches exactly the rows
      without one. */
  datatype Scope = PerTenant(tenantId: Option<string>) | AllTenants

  predicate InScope(row: ProductRow, scope: Scope) {
    scope.AllTenants? || row.tenantId == scope.tenantId
  }

  /** The service's validator scopes by tenant; the older one does not. */
  datatype Scoping = TenantScoped | Global

  function ScopeOf(scoping: Scoping, tenantId: Option<string>): (s: Scope)
    ensures scoping == TenantScoped ==> s == PerTenant(tenantId)
    ensures scoping == Global ==> s == AllTenants
  {
    if scoping == TenantScoped then PerTenant(tenantId) else AllTenants
  }

  predicate HasName(row: ProductRow, name: Option<string>) {
    name == Some(row.name)
  }

  predicate HasArticleNumber(row: ProductRow, articleNumber: Option<string>) {
    articleNumber == Some(row.articleNumber)
  }

  /** `existsByName[AndTenantId]`. */
  predicate ExistsByName(rows: seq<ProductRow>, name: Option<string>, scope: Scope) {
    exists i :: 0 <= i < |rows| && HasName(rows[i], name) && InScope(rows[i], scope)
  }

  /** `existsByArticleNumber[AndTenantId]`. */
  predicate ExistsByArticleNumber(rows: seq<ProductRow>, articleNumber: Option<string>, scope: Scope) {
    exists i :: 0 <= i < |rows| && HasArticleNumber(rows[i], articleNumber) && InScope(rows[i], scope)
  }

  /** The first row in scope with the given name (`findByName[AndTenantId]`). */
  function FindByName(rows: seq<ProductRow>, name: Option<string>, scope: Scope): (r: Option<ProductRow>)
    ensures r.None? <==> !ExistsByName(rows, name, scope)
    ensures r.Some? ==> r.value in rows && HasName(r.value, name) && InScope(r.value, scope)
    decreases |rows|
  {
    if rows == [] then None
    else if HasName(rows[0], name) && InScope(rows[0], scope) then Some(rows[0])
    else
      var r := FindByName(rows[1..], name, scope);
      assert forall i :: 1 <= i < |rows| ==> rows[i] == rows[1..][i - 1];
      r
  }

  /** The first row in scope with the given article number. */
  function FindByArticleNumber(rows: seq<ProductRow>, articleNumber: Option<string>, scope: Scope): (r: Option<ProductRow>)
    ensures r.None? <==> !ExistsByArticleNumber(rows, articleNumber, scope)
    ensures r.Some? ==> r.value in rows && HasArticleNumber(r.value, articleNumber) && InScope(r.value, scope)
    decreases |rows|
  {
    if rows == [] then None
    else if HasArticleNumber(rows[0], articleNumber) && InScope(rows[0], scope) then Some(rows[0])
    else
      var r := FindByArticleNumber(rows[1..], articleNumber, scope);
      assert forall i :: 1 <= i < |rows| ==> rows[i] == rows[1..][i - 1];
      r
  }

  /** `findById`. */
  function FindById(rows: seq<ProductRow>, id: string): (r: Option<ProductRow>)
    ensures r.None? <==> forall i :: 0 <= i < |rows| ==> rows[i].id != id
    ensures r.Some? ==> r.value in rows && r.value.id == id
    decreases |rows|
  {
    if rows == [] then None
    else if rows[0].id == id then Some(rows[0])
    else
      var r := FindById(rows[1..], id);
      assert forall i :: 1 <= i < |rows| ==> rows[i] == rows[1..][i - 1];
      r
  }

  function NameTakenMessage(name: Option<string>): string {
    "Product name: '" + Show(name) + "' is already taken"
  }

  function ArticleNumberTakenMessage(articleNumber: Option<string>): string {
    "Article number: '" + Show(articleNumber) + "' is already taken"
  }

  /** An amount in cents the way `%.2f` prints it: optional minus, the whole
      part, a point and exactly two decimals. */
  function FormatCents(cents: int): (r: string)
    ensures |r| >= 4 && r[|r| - 3] == '.' && IsDigit(r[|r| - 2]) && IsDigit(r[|r| - 1])
    ensures (r[0] == '-') <==> cents < 0
  {
    var m: nat := if cents < 0 then -cents else cents;
    var whole := NatToDecimal(m / 100);
    (if cents < 0 then "-" else "") + whole + "." + [DigitChar(m % 100 / 10), DigitChar(m % 10)]
  }

  /** Reads a `FormatCents` rendering back. */
  function ParseCents(s: string): int
    requires |s| >= 4 && s[|s| - 3] == '.' && IsDigit(s[|s| - 2]) && IsDigit(s[|s| - 1])
    requires s[0] == '-' ==> |s| >= 5 && forall i :: 1 <= i < |s| - 3 ==> IsDigit(s[i])
    requires s[0] != '-' ==> forall i :: 0 <= i < |s| - 3 ==> IsDigit(s[i])
  {
    var cents := DigitValue(s[|s| - 2]) * 10 + DigitValue(s[|s| - 1]);
    if s[0] == '-' then 0 - (ParseNat(s[1..|s| - 3]) * 100 + cents)
    else ParseNat(s[..|s| - 3]) * 100 + cents
  }

  /** The printed price determines the amount. */
  lemma FormatCentsRoundTrip(cents: int)
    ensures var r := FormatCents(cents);
      (r[0] == '-' ==> |r| >= 5 && forall i :: 1 <= i < |r| - 3 ==> IsDigit(r[i]))
      && (r[0] != '-' ==> forall i :: 0 <= i < |r| - 3 ==> IsDigit(r[i]))
      && ParseCents(r) == cents
  {
    var m: nat := if cents < 0 then -cents else cents;
    var whole := NatToDecimal(m / 100);
    var r := FormatCents(cents);
    ParseNatOfDecimal(m / 100);
    if cents < 0 {
      assert r[1..|r| - 3] == whole;
    } else {
      assert r[..|r| - 3] == whole;
    }
  }

  /** A minus-one price prints as "-1.00". */
  lemma FormatMinusOne()
    ensures FormatCents(-100) == "-1.00"
  {
    assert NatToDecimal(1) == "1";
  }

  function PriceMessage(cents: int): string {
    "price: '" + FormatCents(cents) + "' must be greater than 0"
  }

  function MissingProductMessage(id: string): string {
    "Product with id: '" + id + "' does not exist"
  }

  /** The outcome of a validation: normal return, or a
      `ProductValidationException` with its message. */
  datatype Verdict = Pass | Fail(message: string)

  /** `throwIfErrors`. */
  function VerdictOf(errors: seq<string>): (v: Verdict)
    ensures v.Pass? <==> errors == []
    ensures v.Fail? ==> v.message == Join(", ", errors)
  {
    if errors == [] then Pass else Fail(Join(", ", errors))
  }

  /** The errors a create produces, in the order they are collected. */
  function CreateErrors(rows: seq<ProductRow>, dto: ProductToCreateDto, scope: Scope): seq<string> {
    (if ExistsByName(rows, dto.name, scope) then [NameTakenMessage(dto.name)] else [])
    + (if ExistsByArticleNumber(rows, dto.articleNumber, scope) then [ArticleNumberTakenMessage(dto.articleNumber)] else [])
    + (if dto.priceCents <= 0 then [PriceMessage(dto.priceCents)] else [])
  }

  /** A row other than the product itself holds the name: the first row in
      scope with that name, unless its id is the product's. */
  predicate NameTakenByOther(rows: seq<ProductRow>, id: string, name: Option<string>, scope: Scope) {
    var found := FindByName(rows, name, scope);
    found.Some? && found.value.id != id
  }

  predicate ArticleNumberTakenByOther(rows: seq<ProductRow>, id: string, articleNumber: Option<string>, scope: Scope) {
    var found := FindByArticleNumber(rows, articleNumber, scope);
    found.Some? && found.value.id != id
  }

  predicate IsNameModified(dto: ProductToUpdateDto, existing: ProductRow) {
    dto.name != Some(existing.name)
  }

  predicate IsArticleNumberModified(dto: ProductToUpdateDto, existing: ProductRow) {
    dto.articleNumber != Some(existing.articleNumber)
  }

  predicate IsPriceModified(dto: ProductToUpdateDto, existing: ProductRow) {
    dto.priceCents != existing.priceCents
  }

  /** The errors an update of `existing` produces, in the order they are
      collected; a field is checked only when the update changes it. */
  function UpdateErrors(rows: seq<ProductRow>, dto: ProductToUpdateDto, existing: ProductRow, scope: Scope): seq<string> {
    (if IsNameModified(dto, existing) && NameTakenByOther(rows, dto.id, dto.name, scope)
     then [NameTakenMessage(dto.name)] else [])
    + (if IsArticleNumberModified(dto, existing) && ArticleNumberTakenByOther(rows, dto.id, dto.articleNumber, scope)
       then [ArticleNumberTakenMessage(dto.articleNumber)] else [])
    + (if IsPriceModified(dto, existing) && dto.priceCents <= 0 then [PriceMessage(dto.priceCents)] else [])
  }

  /** The whole outcome of an update, the missing-product case included. */
  function UpdateVerdict(rows: seq<ProductRow>, dto: ProductToUpdateDto, scope: Scope): Verdict {
    match FindById(rows, dto.id)
    case None => Fail(MissingProductMessage(dto.id))
    case Some(existing) => VerdictOf(UpdateErrors(rows, dto, existing, scope))
  }

  /** A create is rejected iff the name is taken in scope, or the article
      number is, or the price is not positive. */
  lemma CreateFailsIff(rows: seq<ProductRow>, dto: ProductToCreateDto, scope: Scope)
    ensures VerdictOf(CreateErrors(rows, dto, scope)).Fail?
        <==> ExistsByName(rows, dto.name, scope) || ExistsByArticleNumber(rows, dto.articleNumber, scope) || dto.priceCents <= 0
  {
  }

  /** A price error is reported iff the price is not positive, and it is the
      last message. */
  lemma PriceErrorIffNotPositive(rows: seq<ProductRow>, dto: ProductToCreateDto, scope: Scope)
    ensures var errs := CreateErrors(rows, dto, scope);
      (PriceMessage(dto.priceCents) in errs <==> dto.priceCents <= 0)
      && (dto.priceCents <= 0 ==> errs[|errs| - 1] == PriceMessage(dto.priceCents))
  {
    var p := PriceMessage(dto.priceCents);
    assert p[0] == 'p';
    assert NameTakenMessage(dto.name)[0] == 'P';
    assert ArticleNumberTakenMessage(dto.articleNumber)[0] == 'A';
  }

  /** The messages of a create come in the order name, article number, price:
      a later kind is never reported before an earlier one. */
  lemma CreateErrorsInOrder(rows: seq<ProductRow>, dto: ProductToCreateDto, scope: Scope)
    ensures var errs := CreateErrors(rows, dto, scope);
      var n, a, p := NameTakenMessage(dto.name), ArticleNumberTakenMessage(dto.articleNumber), PriceMessage(dto.priceCents);
      && |errs| <= 3
      && (ExistsByName(rows, dto.name, scope) ==> errs[0] == n)
      && (ExistsByArticleNumber(rows, dto.articleNumber, scope) ==>
            errs[if ExistsByName(rows, dto.name, scope) then 1 else 0] == a)
      && (forall i, j :: 0 <= i < j < |errs| ==> !(errs[i] == p && errs[j] != p))
  {
    var p := PriceMessage(dto.priceCents);
    assert p[0] == 'p';
    assert NameTakenMessage(dto.name)[0] == 'P';
    assert ArticleNumberTakenMessage(dto.articleNumber)[0] == 'A';
  }

  /** A single duplicate name, with a free article number and a positive
      price, is rejected with exactly the name message. */
  lemma SingleDuplicateName(rows: seq<ProductRow>, dto: ProductToCreateDto, scope: Scope)
    requires ExistsByName(rows, dto.name, scope)
    requires !ExistsByArticleNumber(rows, dto.articleNumber, scope) && dto.priceCents > 0
    ensures VerdictOf(CreateErrors(rows, dto, scope)) == Fail("Product name: '" + Show(dto.name) + "' is already taken")
  {
  }

  /** Three errors are joined by ", " in their collection order. */
  lemma AllThreeErrorsJoined(rows: seq<ProductRow>, dto: ProductToCreateDto, scope: Scope)
    requires ExistsByName(rows, dto.name, scope)
    requires ExistsByArticleNumber(rows, dto.articleNumber, scope) && dto.priceCents <= 0
    ensures VerdictOf(CreateErrors(rows, dto, scope))
         == Fail(NameTakenMessage(dto.name) + ", " + ArticleNumberTakenMessage(dto.articleNumber) + ", " + PriceMessage(dto.priceCents))
  {
    var errs := CreateErrors(rows, dto, scope);
    assert errs == [NameTakenMessage(dto.name), ArticleNumberTakenMessage(dto.articleNumber), PriceMessage(dto.priceCents)];
    var n, a, p := NameTakenMessage(dto.name), ArticleNumberTakenMessage(dto.articleNumber), PriceMessage(dto.priceCents);
    assert errs[1..] == [a, p] && errs[1..][1..] == [p];
    assert Join(", ", errs[1..][1..]) == p;
    assert Join(", ", errs[1..]) == a + ", " + p;
    assert Join(", ", errs) == n + ", " + (a + ", " + p);
  }

  /** Per-tenant checks ignore other tenants' products entirely: adding rows
      of other tenants anywhere changes no create outcome. */
  lemma OtherTenantsNeverCollide(rows: seq<ProductRow>, others: seq<ProductRow>, dto: ProductToCreateDto)
    requires forall i :: 0 <= i < |others| ==> others[i].tenantId != dto.tenantId
    ensures CreateErrors(rows + others, dto, PerTenant(dto.tenantId)) == CreateErrors(rows, dto, PerTenant(dto.tenantId))
  {
    var all := rows + others;
    var s := PerTenant(dto.tenantId);
    assert forall i :: 0 <= i < |rows| ==> all[i] == rows[i];
    assert forall i :: |rows| <= i < |all| ==> all[i] == others[i - |rows|];
  }

  /** The global variant does see other tenants: a product of another tenant
      with the same name rejects the create. */
  lemma GlobalCheckSeesOtherTenants(row: ProductRow, dto: ProductToCreateDto)
    requires row.tenantId != dto.tenantId && dto.name == Some(row.name)
    ensures NameTakenMessage(dto.name) in CreateErrors([row], dto, AllTenants)
    ensures NameTakenMessage(dto.name) !in CreateErrors([row], dto, PerTenant(dto.tenantId))
  {
    assert HasName([row][0], dto.name);
    assert NameTakenMessage(dto.name)[0] == 'P';
    assert ArticleNumberTakenMessage(dto.articleNumber)[0] == 'A';
    assert PriceMessage(dto.priceCents)[0] == 'p';
  }

  /** An update of an id that is not stored is rejected with the
      missing-product message alone, whatever else the update holds. */
  lemma MissingProductFailsFirst(rows: seq<ProductRow>, dto: ProductToUpdateDto, scope: Scope)
    requires forall i :: 0 <= i < |rows| ==> rows[i].id != dto.id
    ensures UpdateVerdict(rows, dto, scope) == Fail("Product with id: '" + dto.id + "' does not exist")
  {
  }

  /** An update that changes none of name, article number and price passes,
      whatever else is stored. */
  lemma UnmodifiedFieldsAreNotChecked(rows: seq<ProductRow>, dto: ProductToUpdateDto, scope: Scope)
    requires FindById(rows, dto.id).Some?
    requires var e := FindById(rows, dto.id).value;
      dto.name == Some(e.name) && dto.articleNumber == Some(e.articleNumber) && dto.priceCents == e.priceCents
    ensures UpdateVerdict(rows, dto, scope) == Pass
  {
  }

  /** A product never collides with itself: when the first row found with
      the name is the product being updated, no name error is reported. */
  lemma UpdateExcludesItself(rows: seq<ProductRow>, dto: ProductToUpdateDto, existing: ProductRow, scope: Scope)
    requires FindByName(rows, dto.name, scope).Some? && FindByName(rows, dto.name, scope).value.id == dto.id
    ensures NameTakenMessage(dto.name) !in UpdateErrors(rows, dto, existing, scope)
  {
    assert NameTakenMessage(dto.name)[0] == 'P';
    assert ArticleNumberTakenMessage(dto.articleNumber)[0] == 'A';
    assert PriceMessage(dto.priceCents)[0] == 'p';
  }

  /** Names are unique among the rows, as the schema requires. */
  predicate UniqueNames(rows: seq<ProductRow>) {
    forall i, j :: 0 <= i < j < |rows| ==> rows[i].name != rows[j].name
  }

  /** With unique names, the first-match-then-filter lookup finds another
      product exactly when some other product in scope holds the name. */
  lemma NameTakenByOtherIff(rows: seq<ProductRow>, id: string, name: Option<string>, scope: Scope)
    requires UniqueNames(rows)
    ensures NameTakenByOther(rows, id, name, scope)
        <==> exists i :: 0 <= i < |rows| && HasName(rows[i], name) && InScope(rows[i], scope) && rows[i].id != id
  {
    var found := FindByName(rows, name, scope);
    if found.Some? {
      var k :| 0 <= k < |rows| && rows[k] == found.value;
      forall i | 0 <= i < |rows| && HasName(rows[i], name)
        ensures rows[i] == rows[k]
      {
        assert rows[i].name == rows[k].name;
      }
    }
  }

  /** An update that only renames a stored product is rejected iff another
      product in scope already holds the new name. */
  lemma RenameFailsIffNameHeldByOther(rows: seq<ProductRow>, dto: ProductToUpdateDto, scope: Scope)
    requires UniqueNames(rows)
    requires FindById(rows, dto.id).Some?
    requires var e := FindById(rows, dto.id).value;
      dto.name != Some(e.name) && dto.articleNumber == Some(e.articleNumber) && dto.priceCents == e.priceCents
    ensures UpdateVerdict(rows, dto, scope).Fail?
        <==> exists i :: 0 <= i < |rows| && HasName(rows[i], dto.name) && InScope(rows[i], scope) && rows[i].id != dto.id
  {
    var e := FindById(rows, dto.id).value;
    var errs := UpdateErrors(rows, dto, e, scope);
    assert UpdateVerdict(rows, dto, scope) == VerdictOf(errs);
    assert errs == if NameTakenByOther(rows, dto.id, dto.name, scope) then [NameTakenMessage(dto.name)] else [];
    NameTakenByOtherIff(rows, dto.id, dto.name, scope);
  }

  /** An `ArrayList<String>` of messages, appended to in place. */
  class ErrorList {
    var items: seq<string>

    constructor ()
      ensures items == []
    {
      items := [];
    }

    method Add(message: string)
      modifies this
      ensures items == old(items) + [message]
    {
      items := items + [message];
    }
  }

  /** The product table. */
  class ProductRepository {
    var rows: seq<ProductRow>

    constructor (rows: seq<ProductRow>)
      ensures this.rows == rows
    {
      this.rows := rows;
    }
  }

  /** A validator over a repository. It only reads the repository: no method
      here may modify it. */
  class ProductValidationService {
    const productRepository: ProductRepository
    const scoping: Scoping

    constructor (productRepository: ProductRepository, scoping: Scoping)
      ensures this.productRepository == productRepository && this.scoping == scoping
    {
      this.productRepository := productRepository;
      this.scoping := scoping;
    }

    /** `validateProductToCreate`. */
    method ValidateProductToCreate(dto: ProductToCreateDto) returns (v: Verdict)
      ensures v == VerdictOf(CreateErrors(productRepository.rows, dto, ScopeOf(scoping, dto.tenantId)))
    {
      var errors := new ErrorList();
      var scope := ScopeOf(scoping, dto.tenantId);
      ValidateNameUniqueness(dto.name, scope, errors);
      ValidateArticleNumberUniqueness(dto.articleNumber, scope, errors);
      ValidatePriceGreaterThanZero(dto.priceCents, errors);
      assert errors.items == CreateErrors(productRepository.rows, dto, scope);
      v := ThrowIfErrors(errors);
    }

    /** `validateProductToUpdate`. */
    method ValidateProductToUpdate(dto: ProductToUpdateDto) returns (v: Verdict)
      ensures v == UpdateVerdict(productRepository.rows, dto, ScopeOf(scoping, dto.tenantId))
    {
      var existing := FindById(productRepository.rows, dto.id);
      if existing.None? {
        return Fail(MissingProductMessage(dto.id));
      }
      var errors := new ErrorList();
      var scope := ScopeOf(scoping, dto.tenantId);
      if IsNameModified(dto, existing.value) {
        ValidateNameUniquenessForUpdate(dto.id, dto.name, scope, errors);
      }
      if IsArticleNumberModified(dto, existing.value) {
        ValidateArticleNumberUniquenessForUpdate(dto.id, dto.articleNumber, scope, errors);
      }
      if IsPriceModified(dto, existing.value) {
        ValidatePriceGreaterThanZero(dto.priceCents, errors);
      }
      assert errors.items == UpdateErrors(productRepository.rows, dto, existing.value, scope);
      v := ThrowIfErrors(errors);
    }

    method ValidateNameUniqueness(name: Option<string>, scope: Scope, errors: ErrorList)
      modifies errors
      ensures errors.items == old(errors.items)
        + (if ExistsByName(productRepository.rows, name, scope) then [NameTakenMessage(name)] else [])
    {
      if ExistsByName(productRepository.rows, name, scope) {
        errors.Add(NameTakenMessage(name));
      }
    }

    method ValidateArticleNumberUniqueness(articleNumber: Option<string>, scope: Scope, errors: ErrorList)
      modifies errors
      ensures errors.items == old(errors.items)
        + (if ExistsByArticleNumber(productRepository.rows, articleNumber, scope) then [ArticleNumberTakenMessage(articleNumber)] else [])
    {
      if ExistsByArticleNumber(productRepository.rows, articleNumber, scope) {
        errors.Add(ArticleNumberTakenMessage(articleNumber));
      }
    }

    method ValidateNameUniquenessForUpdate(id: string, name: Option<string>, scope: Scope, errors: ErrorList)
      modifies errors
      ensures errors.items == old(errors.items)
        + (if NameTakenByOther(productRepository.rows, id, name, scope) then [NameTakenMessage(name)] else [])
    {
      var found := FindByName(productRepository.rows, name, scope);
      if found.Some? && found.value.id != id {
        errors.Add(NameTakenMessage(name));
      }
    }

    method ValidateArticleNumberUniquenessForUpdate(id: string, articleNumber: Option<string>, scope: Scope, errors: ErrorList)
      modifies errors
      ensures errors.items == old(errors.items)
        + (if ArticleNumberTakenByOther(productRepository.rows, id, articleNumber, scope)
           then [ArticleNumberTakenMessage(articleNumber)] else [])
    {
      var found := FindByArticleNumber(productRepository.rows, articleNumber, scope);
      if found.Some? && found.value.id != id {
        errors.Add(ArticleNumberTakenMessage(articleNumber));
      }
    }

    method ValidatePriceGreaterThanZero(priceCents: int, errors: ErrorList)
      modifies errors
      ensures errors.items == old(errors.items) + (if priceCents <= 0 then [PriceMessage(priceCents)] else [])
    {
      if priceCents <= 0 {
        errors.Add(PriceMessage(priceCents));
      }
    }

    /** `throwIfErrors`: reads the list, changes nothing. */
    method ThrowIfErrors(errors: ErrorList) returns (v: Verdict)
      ensures v == VerdictOf(errors.items)
    {
      if errors.items != [] {
        return Fail(Join(", ", errors.items));
      }
      v := Pass;
    }
  }
}
