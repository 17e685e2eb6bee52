/** AI-generated product drafts and their approval (app/catalogai/service.py,
    app/catalog/service.py). */
module CatalogAi {
  import opened Options
  import Schema

  type Fault = Schema.Fault

  datatype DraftStatus = Pending | Generated | Failed | Approved | Rejected

  /** `approvedAs` is the product reference set on approval; `price` has no source but the merchant. */
  datatype Draft = Draft(biz: int, status: DraftStatus, name: Option<string>, description: Option<string>,
                         suggestion: Option<string>, category: Option<int>, sku: Option<string>,
                         price: Option<int>, tags: seq<string>, confidence: real, error: Option<string>,
                         requestKey: Option<string>, approvedAs: Option<int>, approver: Option<int>)

  datatype Item = Item(biz: int, category: Option<int>, name: string, description: Option<string>,
                       price: int, sku: string, deleted: bool)

  datatype Category = Category(id: int, biz: int, name: string)

  /** `categories` is in the order the database's collation lists names in, whatever that is. */
  datatype Shop = Shop(categories: seq<Category>, items: map<int, Item>, drafts: map<int, Draft>)

  /** Validated model output. */
  datatype Payload = Payload(name: Option<string>, description: Option<string>, sku: Option<string>,
                             tags: seq<string>, confidence: real, suggestion: Option<string>)

  datatype Generation = Described(payload: Payload) | ProviderError(code: string)

  datatype Field<T> = Unset | Set(value: T)

  datatype Edit = Edit(name: Field<Option<string>>, description: Field<Option<string>>,
                       category: Field<Option<int>>, sku: Field<Option<string>>, price: Field<Option<int>>)

  datatype DraftError = NotFound | Conflict | Validation | GenerationFailed | DatabaseError

  datatype Reply = Ok(id: int) | Err(error: DraftError)

  datatype Result = Result(shop: Shop, reply: Reply)

  predicate Terminal(s: DraftStatus) {
    s in {Approved, Rejected}
  }

  // ----- the database's own rules -----

  predicate ItemsClash(p: Item, q: Item) {
    p.biz == q.biz && p.sku == q.sku && !p.deleted && !q.deleted
  }

  predicate DraftsClash(p: Draft, q: Draft) {
    p.biz == q.biz && p.requestKey.Some? && p.requestKey == q.requestKey
  }

  predicate Rules(shop: Shop) {
    && (forall i, j | i in shop.items && j in shop.items && i != j :: !ItemsClash(shop.items[i], shop.items[j]))
    && (forall i, j | i in shop.drafts && j in shop.drafts && i != j :: !DraftsClash(shop.drafts[i], shop.drafts[j]))
  }

  // ----- queries -----

  predicate HasDraft(shop: Shop, biz: int, id: int) {
    id in shop.drafts && shop.drafts[id].biz == biz
  }

  predicate HasItem(shop: Shop, biz: int, id: int) {
    id in shop.items && shop.items[id].biz == biz && !shop.items[id].deleted
  }

  predicate CategoryAllowed(shop: Shop, biz: int, category: Option<int>) {
    category.None? || exists c | c in shop.categories :: c.id == category.value && c.biz == biz
  }

  predicate ActiveSku(p: Item, biz: int, sku: string) {
    p.biz == biz && p.sku == sku && !p.deleted
  }

  predicate SkuTaken(shop: Shop, biz: int, sku: string) {
    exists i | i in shop.items :: ActiveSku(shop.items[i], biz, sku)
  }

  predicate Keyed(d: Draft, biz: int, key: string) {
    d.biz == biz && d.requestKey == Some(key)
  }

  ghost function FindKeyed(drafts: map<int, Draft>, biz: int, key: string): (r: Option<int>)
    ensures r.Some? ==> r.value in drafts && Keyed(drafts[r.value], biz, key)
    ensures r.None? ==> forall i | i in drafts :: !Keyed(drafts[i], biz, key)
  {
    if exists i :: i in drafts && Keyed(drafts[i], biz, key) then
      var i :| i in drafts && Keyed(drafts[i], biz, key);
      Some(i)
    else None
  }

  lemma KeyedFound(shop: Shop, biz: int, key: string, i: int)
    requires Rules(shop) && i in shop.drafts && Keyed(shop.drafts[i], biz, key)
    ensures FindKeyed(shop.drafts, biz, key) == Some(i)
  {
    var r := FindKeyed(shop.drafts, biz, key);
    assert r.Some? && (r.value != i ==> DraftsClash(shop.drafts[r.value], shop.drafts[i]));
  }

  // ----- text -----

  predicate Blank(c: char) {
    c in " \t\n\r"
  }

  function Strip(s: string): string {
    if s == "" then ""
    else if Blank(s[0]) then Strip(s[1..])
    else if Blank(s[|s| - 1]) then Strip(s[..|s| - 1])
    else s
  }

  function TextOf(s: Option<string>): string {
    if s.Some? then Strip(s.value) else ""
  }

  // ----- what each operation does to the tables -----

  function PutDraft(shop: Shop, id: int, d: Draft): Shop {
    shop.(drafts := shop.drafts[id := d])
  }

  ghost function Commit(committed: Shop, working: Shop, reply: Reply, fault: Fault): Result {
    if !Rules(working) || fault == Schema.AtCommit then Result(committed, Err(DatabaseError))
    else Result(working, if fault == Schema.AfterCommit then Err(DatabaseError) else reply)
  }

  function FreshDraft(biz: int, key: Option<string>): Draft {
    Draft(biz, Pending, None, None, None, None, None, None, [], 0.0, None, key, None, None)
  }

  // ----- categories -----

  /** `list_categories` */
  function ListCategories(categories: seq<Category>, biz: int): seq<Category> {
    if categories == [] then []
    else (if categories[0].biz == biz then [categories[0]] else []) + ListCategories(categories[1..], biz)
  }

  /** Case folding is the platform's; any function will do. */
  function Folded(fold: string -> string, name: string): string {
    fold(Strip(name))
  }

  predicate NamesIt(fold: string -> string, c: Category, biz: int, suggestion: string) {
    c.biz == biz && Folded(fold, c.name) == Folded(fold, suggestion)
  }

  /** The first category of the list whose folded name is the one wanted. */
  function FirstNamed(fold: string -> string, categories: seq<Category>, wanted: string): Option<int> {
    if categories == [] then None
    else if Folded(fold, categories[0].name) == wanted then Some(categories[0].id)
    else FirstNamed(fold, categories[1..], wanted)
  }

  /** `_match_category` */
  function MatchCategory(fold: string -> string, shop: Shop, biz: int, suggestion: Option<string>): Option<int> {
    if suggestion.None? || suggestion.value == "" then None
    else FirstNamed(fold, ListCategories(shop.categories, biz), Folded(fold, suggestion.value))
  }

  lemma {:induction false} OwnCategoriesListed(categories: seq<Category>, biz: int)
    ensures forall c :: c in ListCategories(categories, biz) <==> c in categories && c.biz == biz
  {
    if categories != [] {
      OwnCategoriesListed(categories[1..], biz);
      assert forall c :: c in categories <==> c == categories[0] || c in categories[1..];
    }
  }

  lemma {:induction false} FirstNamedIsNamed(fold: string -> string, categories: seq<Category>, wanted: string)
    ensures match FirstNamed(fold, categories, wanted)
            case None => forall c | c in categories :: Folded(fold, c.name) != wanted
            case Some(id) =>
              exists i | 0 <= i < |categories| ::
                && categories[i].id == id && Folded(fold, categories[i].name) == wanted
                && forall j | 0 <= j < i :: Folded(fold, categories[j].name) != wanted
  {
    if categories != [] && Folded(fold, categories[0].name) != wanted {
      var rest := categories[1..];
      FirstNamedIsNamed(fold, rest, wanted);
      assert forall c | c in categories :: c == categories[0] || c in rest;
      if FirstNamed(fold, rest, wanted).Some? {
        var i :| && 0 <= i < |rest| && rest[i].id == FirstNamed(fold, rest, wanted).value
                 && Folded(fold, rest[i].name) == wanted
                 && forall j | 0 <= j < i :: Folded(fold, rest[j].name) != wanted;
        assert forall j | 0 <= j < i + 1 :: j > 0 ==> categories[j] == rest[j - 1];
        assert categories[i + 1] == rest[i];
      }
    }
  }

  /** A suggestion is matched to the first own category of its name, and to none exactly when it is
      empty or no category of the business has that name: never to another business's. */
  lemma SuggestionMatched(fold: string -> string, shop: Shop, biz: int, suggestion: Option<string>)
    ensures var r := MatchCategory(fold, shop, biz, suggestion);
            && CategoryAllowed(shop, biz, r)
            && (r.Some? ==>
                  exists c | c in shop.categories :: c.id == r.value && NamesIt(fold, c, biz, suggestion.value))
            && (r.None? <==>
                  || suggestion.None? || suggestion.value == ""
                  || forall c | c in shop.categories :: !NamesIt(fold, c, biz, suggestion.value))
  {
    if suggestion.Some? && suggestion.value != "" {
      var list, wanted := ListCategories(shop.categories, biz), Folded(fold, suggestion.value);
      OwnCategoriesListed(shop.categories, biz);
      FirstNamedIsNamed(fold, list, wanted);
      if FirstNamed(fold, list, wanted).Some? {
        var i :| && 0 <= i < |list| && list[i].id == FirstNamed(fold, list, wanted).value
                 && Folded(fold, list[i].name) == wanted;
        assert list[i] in list && NamesIt(fold, list[i], biz, suggestion.value);
      }
    }
  }

  lemma {:induction false} NoneBefore(fold: string -> string, categories: seq<Category>, n: nat, wanted: string)
    requires n <= |categories| && forall j | 0 <= j < n :: Folded(fold, categories[j].name) != wanted
    ensures FirstNamed(fold, categories, wanted) == FirstNamed(fold, categories[n..], wanted)
  {
    if n > 0 {
      NoneBefore(fold, categories[1..], n - 1, wanted);
      assert categories[1..][n - 1..] == categories[n..];
    }
  }

  /** `_apply_payload`: everything but the price. */
  function ApplyPayload(fold: string -> string, shop: Shop, d: Draft, p: Payload): Draft {
    d.(name := p.name, description := p.description, sku := p.sku, tags := p.tags, confidence := p.confidence,
       suggestion := p.suggestion, category := MatchCategory(fold, shop, d.biz, p.suggestion))
  }

  ghost function RunGenerationSpec(fold: string -> string, shop: Shop, id: int, generation: Generation,
                                   fault: Fault): Result
    requires id in shop.drafts
  {
    var d := shop.drafts[id];
    match generation
    case ProviderError(code) =>
      Commit(shop, PutDraft(shop, id, d.(status := Failed, error := Some(code))), Err(GenerationFailed), fault)
    case Described(payload) =>
      Commit(shop, PutDraft(shop, id, ApplyPayload(fold, shop, d, payload).(status := Generated, error := None)),
             Ok(id), fault)
  }

  /** `acceptable` is whether the upload is a non-empty image. */
  ghost function GenerateDraftSpec(fold: string -> string, shop: Shop, biz: int, acceptable: bool,
                                   key: Option<string>, id: int, generation: Generation,
                                   first: Fault, last: Fault): Result
  {
    if !acceptable then Result(shop, Err(Validation))
    else if key.Some? && FindKeyed(shop.drafts, biz, key.value).Some?
    then Result(shop, Ok(FindKeyed(shop.drafts, biz, key.value).value))
    else if id in shop.drafts then Result(shop, Err(DatabaseError))
    else
      var stored := Commit(shop, PutDraft(shop, id, FreshDraft(biz, key)), Ok(id), first);
      if stored.reply.Err? || id !in stored.shop.drafts then stored
      else RunGenerationSpec(fold, stored.shop, id, generation, last)
  }

  ghost function RegenerateSpec(fold: string -> string, shop: Shop, biz: int, id: int, generation: Generation,
                                fault: Fault): Result
  {
    if !HasDraft(shop, biz, id) then Result(shop, Err(NotFound))
    else if Terminal(shop.drafts[id].status) then Result(shop, Err(Conflict))
    else RunGenerationSpec(fold, shop, id, generation, fault)
  }

  /** The edit names a category that is not the business's. */
  predicate BadCategory(shop: Shop, biz: int, edit: Edit) {
    edit.category.Set? && !CategoryAllowed(shop, biz, edit.category.value)
  }

  function Or<T>(field: Field<T>, current: T): T {
    if field.Set? then field.value else current
  }

  function Edited(d: Draft, edit: Edit): Draft {
    d.(category := Or(edit.category, d.category), name := Or(edit.name, d.name),
       description := Or(edit.description, d.description), sku := Or(edit.sku, d.sku),
       price := Or(edit.price, d.price))
  }

  ghost function EditDraftSpec(shop: Shop, biz: int, id: int, edit: Edit, fault: Fault): Result {
    if !HasDraft(shop, biz, id) then Result(shop, Err(NotFound))
    else if Terminal(shop.drafts[id].status) then Result(shop, Err(Conflict))
    else if BadCategory(shop, biz, edit) then Result(shop, Err(Validation))
    else Commit(shop, PutDraft(shop, id, Edited(shop.drafts[id], edit)), Ok(id), fault)
  }

  ghost function RejectSpec(shop: Shop, biz: int, id: int, fault: Fault): Result {
    if !HasDraft(shop, biz, id) then Result(shop, Err(NotFound))
    else if Terminal(shop.drafts[id].status) then Result(shop, Err(Conflict))
    else Commit(shop, PutDraft(shop, id, shop.drafts[id].(status := Rejected)), Ok(id), fault)
  }

  /** `_build_product_create`: the product an approval asks for, when the draft is complete. */
  function BuildProduct(d: Draft): Option<Item> {
    if TextOf(d.name) == "" || TextOf(d.sku) == "" || d.price.None? then None
    else Some(Item(d.biz, d.category, TextOf(d.name), d.description, d.price.value, TextOf(d.sku), false))
  }

  /** `CatalogService.create_product`, on a session that may carry staged rows of its caller. */
  ghost function CreateProductSpec(committed: Shop, working: Shop, item: Item, id: int, fault: Fault): Result {
    if !CategoryAllowed(working, item.biz, item.category) then Result(committed, Err(Validation))
    else if SkuTaken(working, item.biz, item.sku) then Result(committed, Err(Conflict))
    else
      var next := working.(items := working.items[id := item]);
      if id in working.items || !Rules(next) then Result(committed, Err(Conflict))
      else Commit(committed, next, Ok(id), fault)
  }

  function WithEdit(d: Draft, edit: Option<Edit>): Draft {
    if edit.Some? then Edited(d, edit.value) else d
  }

  function Approval(d: Draft, product: int, approver: int): Draft {
    d.(status := Approved, approvedAs := Some(product), approver := Some(approver))
  }

  /** `approve`: the product's own commit first, then the draft's; `first` and `last` are their faults. */
  ghost function ApproveSpec(shop: Shop, biz: int, id: int, approver: int, edit: Option<Edit>, product: int,
                             first: Fault, last: Fault): Result
  {
    if !HasDraft(shop, biz, id) then Result(shop, Err(NotFound))
    else
      var d := shop.drafts[id];
      if d.status == Approved && d.approvedAs.Some? then
        Result(shop, if HasItem(shop, biz, d.approvedAs.value) then Ok(d.approvedAs.value) else Err(NotFound))
      else if d.status != Generated then Result(shop, Err(Conflict))
      else if edit.Some? && BadCategory(shop, biz, edit.value) then Result(shop, Err(Validation))
      else
        var edited := WithEdit(d, edit);
        match BuildProduct(edited)
        case None => Result(shop, Err(Validation))
        case Some(item) =>
          var made := CreateProductSpec(shop, PutDraft(shop, id, edited), item, product, first);
          if made.reply.Err? then made
          else if last == Schema.AtCommit then Result(made.shop, Err(DatabaseError))
          else Result(PutDraft(made.shop, id, Approval(edited, product, approver)), made.reply)
  }

  lemma StatusChangeKeepsRules(shop: Shop, id: int, d: Draft)
    requires Rules(shop) && id in shop.drafts
    requires d.biz == shop.drafts[id].biz && d.requestKey == shop.drafts[id].requestKey
    ensures Rules(PutDraft(shop, id, d))
  {
    var next := PutDraft(shop, id, d);
    forall i, j | i in next.drafts && j in next.drafts && i != j ensures !DraftsClash(next.drafts[i], next.drafts[j]) {
      assert !DraftsClash(shop.drafts[i], shop.drafts[j]);
    }
  }

  // ----- the service -----

  class CatalogAiService {
    const fold: string -> string
    var committed: Shop
    var working: Shop

    ghost predicate Clean()
      reads this
    {
      Rules(committed) && working == committed
    }

    constructor (fold: string -> string, shop: Shop)
      requires Rules(shop)
      ensures Clean() && committed == shop && this.fold == fold
    {
      this.fold, committed, working := fold, shop, shop;
    }

    /** `_commit`, and the refresh after it where the caller asks for one. */
    method CommitWorking(fault: Fault, reply: Reply) returns (r: Reply)
      requires Rules(committed)
      modifies this
      ensures Clean()
      ensures Result(committed, r) == Commit(old(committed), old(working), reply, fault)
    {
      if !Rules(working) || fault == Schema.AtCommit {
        working := committed;
        return Err(DatabaseError);
      }
      committed := working;
      r := if fault == Schema.AfterCommit then Err(DatabaseError) else reply;
    }

    /** The request ends without a commit and its session is closed. */
    method Discard(error: DraftError) returns (r: Reply)
      requires Rules(committed)
      modifies this`working
      ensures Clean() && r == Err(error)
    {
      working := committed;
      r := Err(error);
    }

    method ByRequestKey(biz: int, key: string) returns (r: Option<int>)
      requires Clean()
      ensures r == FindKeyed(committed.drafts, biz, key)
    {
      if i :| i in working.drafts && Keyed(working.drafts[i], biz, key) {
        KeyedFound(working, biz, key, i);
        r := Some(i);
      } else {
        r := None;
      }
    }

    /** `_match_category`: the business's categories in list order, up to the first of that name. */
    method FindCategory(biz: int, suggestion: Option<string>) returns (r: Option<int>)
      ensures r == MatchCategory(fold, working, biz, suggestion)
    {
      if suggestion.None? || suggestion.value == "" {
        return None;
      }
      var list, wanted := ListCategories(working.categories, biz), Folded(fold, suggestion.value);
      for i := 0 to |list|
        invariant forall j | 0 <= j < i :: Folded(fold, list[j].name) != wanted
      {
        if Folded(fold, list[i].name) == wanted {
          NoneBefore(fold, list, i, wanted);
          return Some(list[i].id);
        }
      }
      NoneBefore(fold, list, |list|, wanted);
      r := None;
    }

    method RunGeneration(id: int, generation: Generation, fault: Fault) returns (reply: Reply)
      requires Clean() && id in committed.drafts
      modifies this
      ensures Clean()
      ensures Result(committed, reply) == RunGenerationSpec(fold, old(committed), id, generation, fault)
    {
      var d := working.drafts[id];
      match generation
      case ProviderError(code) =>
        d := d.(status := Failed);
        d := d.(error := Some(code));
        working := PutDraft(working, id, d);
        reply := CommitWorking(fault, Err(GenerationFailed));
      case Described(p) =>
        d := d.(name := p.name, description := p.description, sku := p.sku);
        d := d.(tags := p.tags, confidence := p.confidence, suggestion := p.suggestion);
        var category := FindCategory(d.biz, p.suggestion);
        d := d.(category := category);
        d := d.(status := Generated, error := None);
        working := PutDraft(working, id, d);
        reply := CommitWorking(fault, Ok(id));
    }

    method GenerateDraft(biz: int, acceptable: bool, key: Option<string>, id: int, generation: Generation,
                         first: Fault, last: Fault)
      returns (reply: Reply)
      requires Clean()
      modifies this
      ensures Clean()
      ensures Result(committed, reply)
           == GenerateDraftSpec(fold, old(committed), biz, acceptable, key, id, generation, first, last)
    {
      if !acceptable {
        return Err(Validation);
      }
      if key.Some? {
        var existing := ByRequestKey(biz, key.value);
        if existing.Some? {
          return Ok(existing.value);
        }
      }
      if id in working.drafts {
        return Err(DatabaseError);
      }
      working := PutDraft(working, id, FreshDraft(biz, key));
      reply := CommitWorking(first, Ok(id));
      if reply.Err? {
        return;
      }
      reply := RunGeneration(id, generation, last);
    }

    method Regenerate(biz: int, id: int, generation: Generation, fault: Fault) returns (reply: Reply)
      requires Clean()
      modifies this
      ensures Clean()
      ensures Result(committed, reply) == RegenerateSpec(fold, old(committed), biz, id, generation, fault)
    {
      if !HasDraft(working, biz, id) {
        return Err(NotFound);
      }
      if Terminal(working.drafts[id].status) {
        return Err(Conflict);
      }
      reply := RunGeneration(id, generation, fault);
    }

    /** `_apply_edit`: the category is checked before any field is written. */
    method ApplyEdit(biz: int, id: int, edit: Edit) returns (ok: bool)
      requires Clean() && id in committed.drafts
      modifies this`working
      ensures ok == !BadCategory(committed, biz, edit)
      ensures working == if ok then PutDraft(committed, id, Edited(committed.drafts[id], edit)) else committed
    {
      var d := working.drafts[id];
      if edit.category.Set? {
        if !CategoryAllowed(working, biz, edit.category.value) {
          return false;
        }
        d := d.(category := edit.category.value);
      }
      if edit.name.Set? {
        d := d.(name := edit.name.value);
      }
      if edit.description.Set? {
        d := d.(description := edit.description.value);
      }
      if edit.sku.Set? {
        d := d.(sku := edit.sku.value);
      }
      if edit.price.Set? {
        d := d.(price := edit.price.value);
      }
      working := PutDraft(working, id, d);
      ok := true;
    }

    method EditDraft(biz: int, id: int, edit: Edit, fault: Fault) returns (reply: Reply)
      requires Clean()
      modifies this
      ensures Clean()
      ensures Result(committed, reply) == EditDraftSpec(old(committed), biz, id, edit, fault)
    {
      if !HasDraft(working, biz, id) {
        return Err(NotFound);
      }
      if Terminal(working.drafts[id].status) {
        return Err(Conflict);
      }
      var ok := ApplyEdit(biz, id, edit);
      if !ok {
        return Err(Validation);
      }
      reply := CommitWorking(fault, Ok(id));
    }

    method Reject(biz: int, id: int, fault: Fault) returns (reply: Reply)
      requires Clean()
      modifies this
      ensures Clean()
      ensures Result(committed, reply) == RejectSpec(old(committed), biz, id, fault)
    {
      if !HasDraft(working, biz, id) {
        return Err(NotFound);
      }
      if Terminal(working.drafts[id].status) {
        return Err(Conflict);
      }
      working := PutDraft(working, id, working.drafts[id].(status := Rejected));
      reply := CommitWorking(fault, Ok(id));
    }

    method CreateProduct(item: Item, id: int, fault: Fault) returns (reply: Reply)
      requires Rules(committed)
      modifies this
      ensures Clean()
      ensures Result(committed, reply) == CreateProductSpec(old(committed), old(working), item, id, fault)
    {
      if !CategoryAllowed(working, item.biz, item.category) {
        reply := Discard(Validation);
        return;
      }
      if SkuTaken(working, item.biz, item.sku) {
        reply := Discard(Conflict);
        return;
      }
      var taken := id in working.items;
      working := working.(items := working.items[id := item]);
      if taken || !Rules(working) {
        reply := Discard(Conflict);
        return;
      }
      reply := CommitWorking(fault, Ok(id));
    }

    method Approve(biz: int, id: int, approver: int, edit: Option<Edit>, product: int, first: Fault, last: Fault)
      returns (reply: Reply)
      requires Clean()
      modifies this
      ensures Clean()
      ensures Result(committed, reply)
           == ApproveSpec(old(committed), biz, id, approver, edit, product, first, last)
    {
      if !HasDraft(working, biz, id) {
        return Err(NotFound);
      }
      var d := working.drafts[id];
      if d.status == Approved && d.approvedAs.Some? {
        return if HasItem(working, biz, d.approvedAs.value) then Ok(d.approvedAs.value) else Err(NotFound);
      }
      if d.status != Generated {
        return Err(Conflict);
      }
      if edit.Some? {
        var ok := ApplyEdit(biz, id, edit.value);
        if !ok {
          return Err(Validation);
        }
        d := working.drafts[id];
      }
      assert PutDraft(committed, id, d) == working;
      var item := BuildProduct(d);
      if item.None? {
        reply := Discard(Validation);
        return;
      }
      reply := CreateProduct(item.value, product, first);
      if reply.Err? {
        return;
      }
      StatusChangeKeepsRules(committed, id, Approval(d, product, approver));
      working := PutDraft(working, id, Approval(d, product, approver));
      if last == Schema.AtCommit {
        reply := Discard(DatabaseError);
      } else {
        reply := CommitWorking(Schema.NoFault, reply);
      }
    }
  }
}
