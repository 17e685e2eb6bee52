/** AI drafts over whole runs: which products approval makes, and where prices come from. */
module Approvals {
  import opened Options
  import opened CatalogAi
  import Schema

  datatype DraftCall =
    | SaveCategory(biz: int, id: int, name: string, position: nat)
    | SaveItem(id: int, item: Item)
    | GenerateDraft(biz: int, acceptable: bool, key: Option<string>, id: int, generation: Generation,
                    first: Fault, last: Fault)
    | Regenerate(biz: int, id: int, generation: Generation, fault: Fault)
    | EditDraft(biz: int, id: int, edit: Edit, fault: Fault)
    | Approve(biz: int, id: int, approver: int, revision: Option<Edit>, product: int, first: Fault, last: Fault)
    | Reject(biz: int, id: int, fault: Fault)

  /** `create_category`; `position` is where the collation lists the new name. */
  ghost function SaveCategorySpec(shop: Shop, c: Category, position: nat): Shop {
    if position > |shop.categories|
       || exists k | k in shop.categories :: k.id == c.id || (k.biz == c.biz && k.name == c.name)
    then shop
    else shop.(categories := shop.categories[..position] + [c] + shop.categories[position..])
  }

  /** A merchant's own create, edit or soft delete of a product. */
  ghost function SaveItemSpec(shop: Shop, id: int, item: Item): Shop {
    var next := shop.(items := shop.items[id := item]);
    if (id in shop.items && shop.items[id].biz != item.biz) || !Rules(next) then shop else next
  }

  ghost function StepDraft(fold: string -> string, shop: Shop, call: DraftCall): Shop {
    match call
    case SaveCategory(biz, id, name, position) => SaveCategorySpec(shop, Category(id, biz, name), position)
    case SaveItem(id, item) => SaveItemSpec(shop, id, item)
    case GenerateDraft(biz, acceptable, key, id, generation, first, last) =>
      GenerateDraftSpec(fold, shop, biz, acceptable, key, id, generation, first, last).shop
    case Regenerate(biz, id, generation, fault) => RegenerateSpec(fold, shop, biz, id, generation, fault).shop
    case EditDraft(biz, id, edit, fault) => EditDraftSpec(shop, biz, id, edit, fault).shop
    case Approve(_, _, _, _, _, _, _) => ApproveCall(shop, call).shop
    case Reject(biz, id, fault) => RejectSpec(shop, biz, id, fault).shop
  }

  ghost function ApproveCall(shop: Shop, call: DraftCall): Result
    requires call.Approve?
  {
    ApproveSpec(shop, call.biz, call.id, call.approver, call.revision, call.product, call.first, call.last)
  }

  /** An approval's product became durable. */
  ghost predicate Creates(shop: Shop, call: DraftCall) {
    call.Approve? && call.product !in shop.items && call.product in ApproveCall(shop, call).shop.items
  }

  /** The approval got through its commits: the product's, the refresh after it and the draft's. */
  predicate Finished(call: DraftCall)
    requires call.Approve?
  {
    call.first == Schema.NoFault && call.last != Schema.AtCommit
  }

  /** A product made by approving a draft. */
  datatype Made = Made(draft: int, product: int, finished: bool)

  datatype DraftTrace = DraftTrace(shop: Shop, made: seq<Made>)

  ghost function MadeBy(shop: Shop, call: DraftCall): seq<Made> {
    if Creates(shop, call) then [Made(call.id, call.product, Finished(call))] else []
  }

  ghost function RunDrafts(fold: string -> string, calls: seq<DraftCall>): DraftTrace {
    if calls == [] then DraftTrace(Shop([], map[], map[]), [])
    else
      var before, call := RunDrafts(fold, calls[..|calls| - 1]), calls[|calls| - 1];
      DraftTrace(StepDraft(fold, before.shop, call),
                 before.made + MadeBy(before.shop, call))
  }

  // ----- what each call leaves alone -----

  /** The draft rows are there as before, with the columns the database's rules speak of. */
  ghost predicate SameKeys(a: map<int, Draft>, b: map<int, Draft>) {
    && a.Keys == b.Keys
    && forall d | d in a :: a[d].biz == b[d].biz && a[d].requestKey == b[d].requestKey
  }

  lemma SameKeysKeepRules(shop: Shop, next: Shop)
    requires Rules(shop) && next.items == shop.items && SameKeys(shop.drafts, next.drafts)
    ensures Rules(next)
  {
    forall i, j | i in next.drafts && j in next.drafts && i != j ensures !DraftsClash(next.drafts[i], next.drafts[j]) {
      assert !DraftsClash(shop.drafts[i], shop.drafts[j]);
    }
  }

  lemma FreshKeepsRules(shop: Shop, biz: int, key: Option<string>, id: int)
    requires Rules(shop) && id !in shop.drafts
    requires key.Some? ==> FindKeyed(shop.drafts, biz, key.value).None?
    ensures Rules(PutDraft(shop, id, FreshDraft(biz, key)))
  {
    var next := PutDraft(shop, id, FreshDraft(biz, key));
    forall i, j | i in next.drafts && j in next.drafts && i != j ensures !DraftsClash(next.drafts[i], next.drafts[j]) {
      if i != id && j != id {
        assert !DraftsClash(shop.drafts[i], shop.drafts[j]);
      } else if key.Some? {
        assert i != id ==> !Keyed(shop.drafts[i], biz, key.value);
        assert j != id ==> !Keyed(shop.drafts[j], biz, key.value);
      }
    }
  }

  lemma ApproveKeepsRules(shop: Shop, biz: int, id: int, approver: int, edit: Option<Edit>, product: int,
                          first: Fault, last: Fault)
    requires Rules(shop)
    ensures Rules(ApproveSpec(shop, biz, id, approver, edit, product, first, last).shop)
  {
    hide Rules, BuildProduct, SkuTaken;
    if HasDraft(shop, biz, id) && BuildProduct(WithEdit(shop.drafts[id], edit)).Some? {
      var edited := WithEdit(shop.drafts[id], edit);
      var made := CreateProductSpec(shop, PutDraft(shop, id, edited), BuildProduct(edited).value, product, first);
      if made.reply.Ok? {
        StatusChangeKeepsRules(made.shop, id, Approval(edited, product, approver));
      }
    }
  }

  lemma StepKeepsRules(fold: string -> string, shop: Shop, call: DraftCall)
    requires Rules(shop)
    ensures Rules(StepDraft(fold, shop, call))
  {
    hide ApproveSpec;
    match call
    case Approve(biz, id, approver, edit, product, first, last) =>
      ApproveKeepsRules(shop, biz, id, approver, edit, product, first, last);
    case _ => {}
  }

  // ----- what approval made -----

  ghost predicate IsApprovedAs(shop: Shop, draft: int, product: int) {
    draft in shop.drafts && shop.drafts[draft].status == Approved && shop.drafts[draft].approvedAs == Some(product)
  }

  /** Each entry stands for a product of its own, and the finished entries are the approved drafts. */
  ghost predicate Recorded(t: DraftTrace) {
    && Rules(t.shop)
    && (forall i | 0 <= i < |t.made| :: t.made[i].product in t.shop.items)
    && (forall i, j | 0 <= i < j < |t.made| :: t.made[i].product != t.made[j].product)
    && (forall e | e in t.made :: e.finished <==> IsApprovedAs(t.shop, e.draft, e.product))
    && (forall d | d in t.shop.drafts && t.shop.drafts[d].status == Approved ::
          t.shop.drafts[d].approvedAs.Some? && Made(d, t.shop.drafts[d].approvedAs.value, true) in t.made)
  }

  /** An approval either leaves everything as it was, or makes its product from the edited draft,
      and then approves the draft exactly when it finishes. */
  lemma ApproveEffect(fold: string -> string, shop: Shop, call: DraftCall)
    requires call.Approve?
    ensures var next := StepDraft(fold, shop, call);
            if !Creates(shop, call) then next == shop
            else
              && HasDraft(shop, call.biz, call.id) && shop.drafts[call.id].status == Generated
              && var edited := WithEdit(shop.drafts[call.id], call.revision);
              && BuildProduct(edited).Some?
              && next == Shop(shop.categories, shop.items[call.product := BuildProduct(edited).value],
                              shop.drafts[call.id :=
                                if Finished(call) then Approval(edited, call.product, call.approver) else edited])
  {
    hide Rules, BuildProduct, SkuTaken;
  }

  lemma NewSkuKeepsRules(shop: Shop, item: Item, id: int)
    requires Rules(shop) && id !in shop.items && !SkuTaken(shop, item.biz, item.sku)
    ensures Rules(shop.(items := shop.items[id := item]))
  {
    var next := shop.(items := shop.items[id := item]);
    forall i, j | i in next.items && j in next.items && i != j ensures !ItemsClash(next.items[i], next.items[j]) {
      assert i in shop.items ==> !ActiveSku(shop.items[i], item.biz, item.sku);
      assert j in shop.items ==> !ActiveSku(shop.items[j], item.biz, item.sku);
    }
  }

  /** What an approval needs to make its product. */
  ghost predicate Approvable(shop: Shop, call: DraftCall)
    requires call.Approve?
  {
    && HasDraft(shop, call.biz, call.id) && shop.drafts[call.id].status == Generated
    && (call.revision.Some? ==> !BadCategory(shop, call.biz, call.revision.value))
    && var built := BuildProduct(WithEdit(shop.drafts[call.id], call.revision));
    && built.Some?
    && CategoryAllowed(shop, call.biz, built.value.category)
    && !SkuTaken(shop, call.biz, built.value.sku)
    && call.product !in shop.items && call.first != Schema.AtCommit
  }

  lemma ApprovalCreatesExactly(shop: Shop, call: DraftCall)
    requires Rules(shop) && call.Approve?
    ensures Creates(shop, call) <==> Approvable(shop, call)
  {
    if HasDraft(shop, call.biz, call.id) {
      var edited := WithEdit(shop.drafts[call.id], call.revision);
      var working := PutDraft(shop, call.id, edited);
      StatusChangeKeepsRules(shop, call.id, edited);
      var built := BuildProduct(edited);
      hide Rules, BuildProduct;
      if built.Some? && call.product !in shop.items && built.value.biz == call.biz {
        if !SkuTaken(shop, call.biz, built.value.sku) {
          NewSkuKeepsRules(working, built.value, call.product);
        }
      }
    }
  }

  /** Approved draft rows never change again, and no call but an approval approves one. */
  lemma ApprovedStays(fold: string -> string, shop: Shop, call: DraftCall, d: int)
    requires Rules(shop) && d in shop.drafts && shop.drafts[d].status == Approved
    requires shop.drafts[d].approvedAs.Some?
    ensures d in StepDraft(fold, shop, call).drafts && StepDraft(fold, shop, call).drafts[d] == shop.drafts[d]
  {
    hide Rules, BuildProduct, ApproveSpec, Creates;
    if call.Approve? {
      ApproveEffect(fold, shop, call);
    }
  }

  lemma OnlyApprovalApproves(fold: string -> string, shop: Shop, call: DraftCall, d: int)
    requires Rules(shop) && d in StepDraft(fold, shop, call).drafts
    requires StepDraft(fold, shop, call).drafts[d].status == Approved
    requires d in shop.drafts ==> shop.drafts[d].status != Approved
    ensures Creates(shop, call) && Finished(call) && d == call.id
    ensures StepDraft(fold, shop, call).drafts[d].approvedAs == Some(call.product)
  {
    hide Rules, BuildProduct, ApproveSpec, Creates;
    if call.Approve? {
      ApproveEffect(fold, shop, call);
    }
  }

  lemma FinishedApproves(fold: string -> string, shop: Shop, call: DraftCall)
    requires Creates(shop, call)
    ensures Finished(call) <==> IsApprovedAs(StepDraft(fold, shop, call), call.id, call.product)
    ensures call.id in shop.drafts && shop.drafts[call.id].status != Approved
  {
    hide BuildProduct, StepDraft;
    ApproveEffect(fold, shop, call);
  }

  lemma ItemsStay(fold: string -> string, shop: Shop, call: DraftCall, p: int)
    requires p in shop.items
    ensures p in StepDraft(fold, shop, call).items
  {
    hide Rules, BuildProduct, SkuTaken;
  }

  lemma OtherEntryStays(fold: string -> string, shop: Shop, call: DraftCall, e: Made)
    requires Rules(shop) && e.product in shop.items
    requires forall d | d in shop.drafts && shop.drafts[d].status == Approved :: shop.drafts[d].approvedAs.Some?
    ensures IsApprovedAs(shop, e.draft, e.product) <==> IsApprovedAs(StepDraft(fold, shop, call), e.draft, e.product)
  {
    hide Rules, StepDraft, Finished;
    var next := StepDraft(fold, shop, call);
    if e.draft in shop.drafts && shop.drafts[e.draft].status == Approved {
      ApprovedStays(fold, shop, call, e.draft);
    } else if e.draft in next.drafts && next.drafts[e.draft].status == Approved {
      OnlyApprovalApproves(fold, shop, call, e.draft);
    }
  }

  lemma StepKeepsRecorded(fold: string -> string, t: DraftTrace, call: DraftCall)
    requires Recorded(t)
    ensures Recorded(DraftTrace(StepDraft(fold, t.shop, call), t.made + MadeBy(t.shop, call)))
  {
    hide Rules, StepDraft, Finished, IsApprovedAs;
    var next := StepDraft(fold, t.shop, call);
    var more := MadeBy(t.shop, call);
    StepKeepsRules(fold, t.shop, call);
    if Creates(t.shop, call) {
      ApproveEffect(fold, t.shop, call);
    }
    forall i | 0 <= i < |t.made| ensures t.made[i].product in next.items {
      ItemsStay(fold, t.shop, call, t.made[i].product);
    }
    forall e | e in t.made + more ensures e.finished <==> IsApprovedAs(next, e.draft, e.product) {
      if e in t.made {
        OtherEntryStays(fold, t.shop, call, e);
      } else {
        FinishedApproves(fold, t.shop, call);
      }
    }
    forall d | d in next.drafts && next.drafts[d].status == Approved
      ensures next.drafts[d].approvedAs.Some? && Made(d, next.drafts[d].approvedAs.value, true) in t.made + more
    {
      if d in t.shop.drafts && t.shop.drafts[d].status == Approved {
        ApprovedStays(fold, t.shop, call, d);
      } else {
        OnlyApprovalApproves(fold, t.shop, call, d);
      }
    }
  }

  lemma {:induction false} RunRecorded(fold: string -> string, calls: seq<DraftCall>)
    ensures Recorded(RunDrafts(fold, calls))
  {
    if calls != [] {
      hide Recorded, StepDraft, Creates, Finished;
      RunRecorded(fold, calls[..|calls| - 1]);
      StepKeepsRecorded(fold, RunDrafts(fold, calls[..|calls| - 1]), calls[|calls| - 1]);
    }
  }

  /** One product per approved draft and one approved draft per product made by approval. */
  ghost predicate Bijective(t: DraftTrace) {
    && (forall e | e in t.made :: IsApprovedAs(t.shop, e.draft, e.product))
    && (forall i, j | 0 <= i < j < |t.made| ::
          t.made[i].draft != t.made[j].draft && t.made[i].product != t.made[j].product)
    && (forall d | d in t.shop.drafts && t.shop.drafts[d].status == Approved ::
          exists e | e in t.made :: e.draft == d && t.shop.drafts[d].approvedAs == Some(e.product))
  }

  /** Approved drafts and products made by approval are in bijection after a run exactly when every
      approval that made its product durable also got through the rest of its commits. */
  lemma ApprovalsBijective(fold: string -> string, calls: seq<DraftCall>)
    ensures Bijective(RunDrafts(fold, calls)) <==> forall e | e in RunDrafts(fold, calls).made :: e.finished
  {
    var t := RunDrafts(fold, calls);
    RunRecorded(fold, calls);
    hide RunDrafts;
    if forall e | e in t.made :: e.finished {
      forall i, j | 0 <= i < j < |t.made|
        ensures t.made[i].draft != t.made[j].draft && t.made[i].product != t.made[j].product
      {
        assert t.made[i] in t.made && t.made[j] in t.made;
      }
      forall d | d in t.shop.drafts && t.shop.drafts[d].status == Approved
        ensures exists e | e in t.made :: e.draft == d && t.shop.drafts[d].approvedAs == Some(e.product)
      {
        assert Made(d, t.shop.drafts[d].approvedAs.value, true) in t.made;
      }
    }
  }

  /** Approving an approved draft again changes nothing and answers with its product, while that
      product has not been deleted. */
  lemma ReapprovalCreatesNothing(fold: string -> string, calls: seq<DraftCall>, biz: int, id: int, approver: int,
                                 edit: Option<Edit>, product: int, first: Fault, last: Fault)
    requires HasDraft(RunDrafts(fold, calls).shop, biz, id) && RunDrafts(fold, calls).shop.drafts[id].status == Approved
    ensures var shop := RunDrafts(fold, calls).shop;
            var r := ApproveSpec(shop, biz, id, approver, edit, product, first, last);
            && r.shop == shop
            && shop.drafts[id].approvedAs.Some?
            && r.reply == if HasItem(shop, biz, shop.drafts[id].approvedAs.value)
                          then Ok(shop.drafts[id].approvedAs.value) else Err(NotFound)
  {
    RunRecorded(fold, calls);
  }

  // ----- prices -----

  /** The call brings an edit of the merchant's. */
  predicate CarriesEdit(call: DraftCall) {
    call.EditDraft? || (call.Approve? && call.revision.Some?)
  }

  function EditOf(call: DraftCall): Edit
    requires CarriesEdit(call)
  {
    if call.EditDraft? then call.edit else call.revision.value
  }

  /** The guards an edit or an approval has to pass to be committed. */
  ghost predicate Accepts(shop: Shop, call: DraftCall)
    requires CarriesEdit(call)
  {
    if call.Approve? then Approvable(shop, call)
    else
      && HasDraft(shop, call.biz, call.id) && !Terminal(shop.drafts[call.id].status)
      && !BadCategory(shop, call.biz, call.edit) && call.fault != Schema.AtCommit
  }

  /** The merchant's edit of a draft is accepted and committed. */
  ghost predicate Lands(shop: Shop, call: DraftCall, d: int) {
    CarriesEdit(call) && call.id == d && Accepts(shop, call)
  }

  /** The price the merchant's last committed edit that mentions one gave a draft. */
  ghost function LastPrice(fold: string -> string, calls: seq<DraftCall>, d: int): Option<int> {
    if calls == [] then None
    else
      var earlier, last := calls[..|calls| - 1], calls[|calls| - 1];
      if Lands(RunDrafts(fold, earlier).shop, last, d) then Or(EditOf(last).price, LastPrice(fold, earlier, d))
      else LastPrice(fold, earlier, d)
  }

  ghost function PriceOf(shop: Shop, d: int): Option<int> {
    if d in shop.drafts then shop.drafts[d].price else None
  }

  lemma ApprovePrice(fold: string -> string, shop: Shop, call: DraftCall, d: int)
    requires Rules(shop) && call.Approve?
    ensures PriceOf(StepDraft(fold, shop, call), d)
         == if Lands(shop, call, d) then Or(EditOf(call).price, PriceOf(shop, d)) else PriceOf(shop, d)
  {
    hide Rules, BuildProduct, StepDraft, Creates, Finished, Approvable;
    ApprovalCreatesExactly(shop, call);
    ApproveEffect(fold, shop, call);
  }

  lemma StepPrice(fold: string -> string, shop: Shop, call: DraftCall, d: int)
    requires Rules(shop)
    ensures PriceOf(StepDraft(fold, shop, call), d)
         == if Lands(shop, call, d) then Or(EditOf(call).price, PriceOf(shop, d)) else PriceOf(shop, d)
  {
    hide Rules, BuildProduct, ApproveSpec, Creates, Approvable;
    match call
    case EditDraft(biz, id, edit, fault) =>
      if HasDraft(shop, biz, id) {
        SameKeysKeepRules(shop, PutDraft(shop, id, Edited(shop.drafts[id], edit)));
      }
    case Approve(_, _, _, _, _, _, _) =>
      ApprovePrice(fold, shop, call, d);
    case _ => {}
  }

  /** A draft's price is always the last committed price its merchant supplied. */
  lemma {:induction false} PriceIsMerchants(fold: string -> string, calls: seq<DraftCall>, d: int)
    ensures PriceOf(RunDrafts(fold, calls).shop, d) == LastPrice(fold, calls, d)
  {
    if calls != [] {
      hide StepDraft, Rules, Creates, Lands, PriceOf;
      var earlier, last := calls[..|calls| - 1], calls[|calls| - 1];
      PriceIsMerchants(fold, earlier, d);
      RunRecorded(fold, earlier);
      StepPrice(fold, RunDrafts(fold, earlier).shop, last, d);
    }
  }

  /** A product made by approval is sold at the merchant's last price for its draft. */
  lemma ProductPriced(fold: string -> string, calls: seq<DraftCall>, call: DraftCall)
    requires Creates(RunDrafts(fold, calls).shop, call)
    ensures Some(StepDraft(fold, RunDrafts(fold, calls).shop, call).items[call.product].price)
         == LastPrice(fold, calls + [call], call.id)
  {
    var shop := RunDrafts(fold, calls).shop;
    assert (calls + [call])[..|calls|] == calls;
    PriceIsMerchants(fold, calls + [call], call.id);
    assert RunDrafts(fold, calls + [call]).shop == StepDraft(fold, shop, call);
    hide StepDraft, RunDrafts, Creates, LastPrice;
    ApproveEffect(fold, shop, call);
  }

  // ----- categories and completeness -----

  ghost predicate CategoriesOwned(shop: Shop) {
    forall d | d in shop.drafts :: CategoryAllowed(shop, shop.drafts[d].biz, shop.drafts[d].category)
  }

  lemma NewCategoryKeepsAllowed(shop: Shop, c: Category, position: nat, biz: int, category: Option<int>)
    requires CategoryAllowed(shop, biz, category)
    ensures CategoryAllowed(SaveCategorySpec(shop, c, position), biz, category)
  {
    var next := SaveCategorySpec(shop, c, position);
    if category.Some? && next != shop {
      var k :| k in shop.categories && k.id == category.value && k.biz == biz;
      assert shop.categories == shop.categories[..position] + shop.categories[position..];
      assert k in next.categories;
    }
  }

  lemma GenerationKeepsCategories(fold: string -> string, shop: Shop, id: int, generation: Generation, fault: Fault)
    requires CategoriesOwned(shop) && id in shop.drafts
    ensures CategoriesOwned(RunGenerationSpec(fold, shop, id, generation, fault).shop)
  {
    hide Rules, MatchCategory, CategoryAllowed;
    assert CategoryAllowed(shop, shop.drafts[id].biz, shop.drafts[id].category);
    if generation.Described? {
      SuggestionMatched(fold, shop, shop.drafts[id].biz, generation.payload.suggestion);
    }
    SameCategories(shop, RunGenerationSpec(fold, shop, id, generation, fault).shop);
  }

  /** Whether a category is allowed depends on the category table alone. */
  lemma SameCategories(shop: Shop, next: Shop)
    ensures shop.categories == next.categories ==>
              forall biz, category :: CategoryAllowed(shop, biz, category) == CategoryAllowed(next, biz, category)
  {}

  lemma GenerateKeepsCategories(fold: string -> string, shop: Shop, call: DraftCall)
    requires CategoriesOwned(shop) && call.GenerateDraft?
    ensures CategoriesOwned(StepDraft(fold, shop, call))
  {
    hide Rules, RunGenerationSpec, CategoryAllowed;
    var stored := PutDraft(shop, call.id, FreshDraft(call.biz, call.key));
    NoCategoryAllowed(shop, call.biz);
    SameCategories(shop, stored);
    if call.id !in shop.drafts {
      assert CategoriesOwned(stored);
      GenerationKeepsCategories(fold, stored, call.id, call.generation, call.last);
    }
  }

  lemma NoCategoryAllowed(shop: Shop, biz: int)
    ensures CategoryAllowed(shop, biz, None)
  {}

  lemma StepKeepsCategories(fold: string -> string, shop: Shop, call: DraftCall)
    requires CategoriesOwned(shop)
    ensures CategoriesOwned(StepDraft(fold, shop, call))
  {
    hide Rules, ApproveCall, RunGenerationSpec, CategoryAllowed, SaveCategorySpec, GenerateDraftSpec;
    SameCategories(shop, StepDraft(fold, shop, call));
    match call
    case SaveCategory(biz, id, name, position) =>
      var c := Category(id, biz, name);
      forall d | d in shop.drafts
        ensures CategoryAllowed(SaveCategorySpec(shop, c, position), shop.drafts[d].biz, shop.drafts[d].category)
      {
        NewCategoryKeepsAllowed(shop, c, position, shop.drafts[d].biz, shop.drafts[d].category);
      }
      SaveCategoryKeepsDrafts(shop, c, position);
    case GenerateDraft(_, _, _, _, _, _, _) =>
      GenerateKeepsCategories(fold, shop, call);
    case Regenerate(biz, id, generation, fault) =>
      if HasDraft(shop, biz, id) {
        GenerationKeepsCategories(fold, shop, id, generation, fault);
      }
    case Approve(_, _, _, _, _, _, _) =>
      ApproveKeepsCategories(fold, shop, call);
    case _ => {}
  }

  lemma SaveCategoryKeepsDrafts(shop: Shop, c: Category, position: nat)
    ensures SaveCategorySpec(shop, c, position).drafts == shop.drafts
  {}

  lemma ApproveKeepsCategories(fold: string -> string, shop: Shop, call: DraftCall)
    requires CategoriesOwned(shop) && call.Approve?
    ensures CategoriesOwned(StepDraft(fold, shop, call))
  {
    ApproveEffect(fold, shop, call);
    if Creates(shop, call) {
      ApproveChecksCategory(shop, call);
    }
    hide StepDraft, Creates, BuildProduct;
  }

  lemma ApproveChecksCategory(shop: Shop, call: DraftCall)
    requires call.Approve? && Creates(shop, call)
    ensures CategoryAllowed(shop, call.biz, WithEdit(shop.drafts[call.id], call.revision).category)
  {
    hide Rules, SkuTaken, Strip;
  }

  /** No draft ever carries another business's category, whatever the model suggests. */
  lemma {:induction false} DraftCategoriesOwned(fold: string -> string, calls: seq<DraftCall>)
    ensures CategoriesOwned(RunDrafts(fold, calls).shop)
  {
    hide StepDraft, Creates, Finished;
    if calls != [] {
      DraftCategoriesOwned(fold, calls[..|calls| - 1]);
      StepKeepsCategories(fold, RunDrafts(fold, calls[..|calls| - 1]).shop, calls[|calls| - 1]);
    }
  }

  lemma {:induction false} StripIdempotent(s: string)
    ensures Strip(Strip(s)) == Strip(s)
    ensures Strip(s) != "" ==> !Blank(Strip(s)[0]) && !Blank(Strip(s)[|Strip(s)| - 1])
  {
    if s != "" {
      if Blank(s[0]) {
        StripIdempotent(s[1..]);
      } else if Blank(s[|s| - 1]) {
        StripIdempotent(s[..|s| - 1]);
      }
    }
  }

  /** A product made by approval is complete: a name and an SKU that are not blank and carry no blanks
      around them, a category of the business or none, and an SKU no other active product has. */
  lemma ProductComplete(fold: string -> string, shop: Shop, call: DraftCall)
    requires Rules(shop) && Creates(shop, call)
    ensures var item := StepDraft(fold, shop, call).items[call.product];
            && item.biz == call.biz && !item.deleted
            && item.name != "" && Strip(item.name) == item.name && item.sku != "" && Strip(item.sku) == item.sku
            && CategoryAllowed(shop, call.biz, item.category)
            && !SkuTaken(shop, call.biz, item.sku)
  {
    ApproveEffect(fold, shop, call);
    ApprovalCreatesExactly(shop, call);
    var edited := WithEdit(shop.drafts[call.id], call.revision);
    StripIdempotent(edited.name.value);
    StripIdempotent(edited.sku.value);
    hide Rules, StepDraft, Creates, SkuTaken, Strip;
  }

  // ----- model output never reaches a price -----

  predicate AlikeGenerations(g: Generation, h: Generation) {
    g == h || (g.Described? && h.Described?)
  }

  /** The calls differ in nothing but the fields the model wrote. */
  predicate AlikeCalls(c: DraftCall, e: DraftCall) {
    match c
    case GenerateDraft(biz, acceptable, key, id, g, first, last) =>
      && e.GenerateDraft? && AlikeGenerations(g, e.generation)
      && e == GenerateDraft(biz, acceptable, key, id, e.generation, first, last)
    case Regenerate(biz, id, g, fault) =>
      && e.Regenerate? && AlikeGenerations(g, e.generation)
      && e == Regenerate(biz, id, e.generation, fault)
    case _ => c == e
  }

  /** Two shops whose drafts agree in everything but what a model may have written. */
  ghost predicate SamePrices(s: Shop, t: Shop) {
    && s.categories == t.categories
    && SameKeys(s.drafts, t.drafts)
    && forall d | d in s.drafts :: s.drafts[d].status == t.drafts[d].status && s.drafts[d].price == t.drafts[d].price
  }

  lemma RunGenerationAlike(fold: string -> string, s: Shop, t: Shop, id: int, g: Generation, h: Generation,
                           fault: Fault)
    requires Rules(s) && Rules(t) && SamePrices(s, t) && id in s.drafts && AlikeGenerations(g, h)
    ensures SamePrices(RunGenerationSpec(fold, s, id, g, fault).shop, RunGenerationSpec(fold, t, id, h, fault).shop)
  {
    hide Rules;
    forall d: Draft | d.biz == s.drafts[id].biz && d.requestKey == s.drafts[id].requestKey
      ensures Rules(PutDraft(s, id, d)) && Rules(PutDraft(t, id, d))
    {
      StatusChangeKeepsRules(s, id, d);
      StatusChangeKeepsRules(t, id, d);
    }
  }

  lemma KeysAlike(s: Shop, t: Shop, biz: int, key: string)
    requires SamePrices(s, t)
    ensures FindKeyed(s.drafts, biz, key).Some? <==> FindKeyed(t.drafts, biz, key).Some?
  {
    var a, b := FindKeyed(s.drafts, biz, key), FindKeyed(t.drafts, biz, key);
    assert a.Some? ==> Keyed(t.drafts[a.value], biz, key);
    assert b.Some? ==> Keyed(s.drafts[b.value], biz, key);
  }

  lemma StoreAlike(s: Shop, t: Shop, biz: int, key: Option<string>, id: int)
    requires Rules(s) && Rules(t) && SamePrices(s, t) && id !in s.drafts
    requires key.Some? ==> FindKeyed(s.drafts, biz, key.value).None? && FindKeyed(t.drafts, biz, key.value).None?
    ensures var u, v := PutDraft(s, id, FreshDraft(biz, key)), PutDraft(t, id, FreshDraft(biz, key));
            Rules(u) && Rules(v) && SamePrices(u, v) && id in u.drafts && id in v.drafts
  {
    hide Rules;
    FreshKeepsRules(s, biz, key, id);
    FreshKeepsRules(t, biz, key, id);
  }

  lemma GenerateAlike(fold: string -> string, s: Shop, t: Shop, c: DraftCall, e: DraftCall)
    requires Rules(s) && Rules(t) && SamePrices(s, t) && AlikeCalls(c, e) && c.GenerateDraft?
    ensures SamePrices(StepDraft(fold, s, c), StepDraft(fold, t, e))
  {
    if c.key.Some? {
      KeysAlike(s, t, c.biz, c.key.value);
    }
    assert c.id in s.drafts <==> c.id in t.drafts;
    hide Rules, RunGenerationSpec, SamePrices, PutDraft;
    if c.id !in s.drafts && (c.key.Some? ==> FindKeyed(s.drafts, c.biz, c.key.value).None?) {
      StoreAlike(s, t, c.biz, c.key, c.id);
      RunGenerationAlike(fold, PutDraft(s, c.id, FreshDraft(c.biz, c.key)), PutDraft(t, c.id, FreshDraft(c.biz, c.key)),
                         c.id, c.generation, e.generation, c.last);
    }
  }

  lemma ApproveAlike(fold: string -> string, s: Shop, t: Shop, call: DraftCall)
    requires SamePrices(s, t) && call.Approve? && (Creates(s, call) <==> Creates(t, call))
    ensures SamePrices(StepDraft(fold, s, call), StepDraft(fold, t, call))
  {
    hide StepDraft, Creates, BuildProduct, Finished;
    ApproveEffect(fold, s, call);
    ApproveEffect(fold, t, call);
  }

  lemma EditAlike(fold: string -> string, s: Shop, t: Shop, call: DraftCall)
    requires Rules(s) && Rules(t) && SamePrices(s, t) && (call.EditDraft? || call.Reject?)
    ensures SamePrices(StepDraft(fold, s, call), StepDraft(fold, t, call))
  {
    hide Rules;
    if HasDraft(s, call.biz, call.id) {
      var d, e := s.drafts[call.id], t.drafts[call.id];
      if call.EditDraft? {
        StatusChangeKeepsRules(s, call.id, Edited(d, call.edit));
        StatusChangeKeepsRules(t, call.id, Edited(e, call.edit));
      } else {
        StatusChangeKeepsRules(s, call.id, d.(status := Rejected));
        StatusChangeKeepsRules(t, call.id, e.(status := Rejected));
      }
    }
  }

  lemma StepAlike(fold: string -> string, s: Shop, t: Shop, c: DraftCall, e: DraftCall)
    requires Rules(s) && Rules(t) && SamePrices(s, t) && AlikeCalls(c, e)
    requires c.Approve? ==> (Approvable(s, c) <==> Approvable(t, c))
    ensures SamePrices(StepDraft(fold, s, c), StepDraft(fold, t, e))
  {
    if c.Approve? {
      ApprovalCreatesExactly(s, c);
      ApprovalCreatesExactly(t, c);
      hide Rules, Creates, Approvable, StepDraft;
      ApproveAlike(fold, s, t, c);
    } else if c.EditDraft? || c.Reject? {
      EditAlike(fold, s, t, c);
    } else if c.GenerateDraft? {
      GenerateAlike(fold, s, t, c, e);
    } else if c.Regenerate? {
      hide Rules, RunGenerationSpec;
      if HasDraft(s, c.biz, c.id) {
        RunGenerationAlike(fold, s, t, c.id, c.generation, e.generation, c.fault);
      }
    }
  }

  /** Two histories of the same merchant over different model output. */
  predicate AlikeRuns(calls: seq<DraftCall>, other: seq<DraftCall>) {
    |calls| == |other| && forall i | 0 <= i < |calls| :: AlikeCalls(calls[i], other[i])
  }

  /** At every point of both histories, the same approvals pass their guards. */
  ghost predicate SameApprovals(fold: string -> string, calls: seq<DraftCall>, other: seq<DraftCall>)
    requires |calls| == |other|
  {
    forall i | 0 <= i < |calls| && calls[i].Approve? ::
      other[i].Approve?
      && Approvable(RunDrafts(fold, calls[..i]).shop, calls[i])
         == Approvable(RunDrafts(fold, other[..i]).shop, other[i])
  }

  lemma EarlierAlike(fold: string -> string, calls: seq<DraftCall>, other: seq<DraftCall>)
    requires calls != [] && AlikeRuns(calls, other) && SameApprovals(fold, calls, other)
    ensures var n := |calls| - 1; AlikeRuns(calls[..n], other[..n]) && SameApprovals(fold, calls[..n], other[..n])
  {
    hide Approvable, RunDrafts;
    var n := |calls| - 1;
    forall i | 0 <= i < n && calls[..n][i].Approve?
      ensures other[..n][i].Approve?
      ensures Approvable(RunDrafts(fold, calls[..n][..i]).shop, calls[..n][i])
              <==> Approvable(RunDrafts(fold, other[..n][..i]).shop, other[..n][i])
    {
      assert calls[..n][..i] == calls[..i] && other[..n][..i] == other[..i];
    }
  }

  /** Runs that differ only in model output, and in which the same approvals pass their guards, give
      every draft the same status and the same price. */
  lemma {:induction false} PricesIgnoreTheModel(fold: string -> string, calls: seq<DraftCall>, other: seq<DraftCall>)
    requires AlikeRuns(calls, other) && SameApprovals(fold, calls, other)
    ensures SamePrices(RunDrafts(fold, calls).shop, RunDrafts(fold, other).shop)
  {
    if calls != [] {
      hide StepDraft, Rules, Creates, Approvable, SamePrices;
      var n := |calls| - 1;
      EarlierAlike(fold, calls, other);
      PricesIgnoreTheModel(fold, calls[..n], other[..n]);
      RunRecorded(fold, calls[..n]);
      RunRecorded(fold, other[..n]);
      assert AlikeCalls(calls[n], other[n]);
      assert calls[n].Approve? ==> calls[n] == other[n];
      hide AlikeCalls;
      StepAlike(fold, RunDrafts(fold, calls[..n]).shop, RunDrafts(fold, other[..n]).shop, calls[n], other[n]);
    }
  }

  // ----- exactly when prices agree -----

  ghost predicate EqualPrices(s: Shop, t: Shop) {
    forall d :: PriceOf(s, d) == PriceOf(t, d)
  }

  /** The call asks for a price its draft does not have yet. */
  ghost predicate AsksNewPrice(shop: Shop, call: DraftCall) {
    && CarriesEdit(call) && EditOf(call).price.Set?
    && EditOf(call).price.value != PriceOf(shop, call.id)
  }

  /** A call that asks for a new price passes its guards in both shops or in neither. */
  ghost predicate GuardsAgree(s: Shop, t: Shop, call: DraftCall) {
    AsksNewPrice(s, call) ==> (Accepts(s, call) <==> Accepts(t, call))
  }

  /** One call on two shops with equal prices, over different model output: prices stay equal exactly when
      the guards of a new price agree. */
  lemma StepPricesAgreeExactly(fold: string -> string, s: Shop, t: Shop, c: DraftCall, e: DraftCall)
    requires Rules(s) && Rules(t) && EqualPrices(s, t) && AlikeCalls(c, e)
    ensures EqualPrices(StepDraft(fold, s, c), StepDraft(fold, t, e)) <==> GuardsAgree(s, t, c)
  {
    assert CarriesEdit(c) || CarriesEdit(e) ==> c == e;
    hide Rules, StepDraft, Accepts, PriceOf, AlikeCalls;
    var u, v := StepDraft(fold, s, c), StepDraft(fold, t, e);
    forall d
      ensures PriceOf(u, d) == if Lands(s, c, d) then Or(EditOf(c).price, PriceOf(s, d)) else PriceOf(s, d)
      ensures PriceOf(v, d) == if Lands(t, e, d) then Or(EditOf(e).price, PriceOf(t, d)) else PriceOf(t, d)
    {
      StepPrice(fold, s, c, d);
      StepPrice(fold, t, e, d);
    }
    if CarriesEdit(c) {
      assert PriceOf(s, c.id) == PriceOf(t, c.id);
      assert EqualPrices(u, v) ==> PriceOf(u, c.id) == PriceOf(v, c.id);
    }
  }

  ghost predicate EqualAt(fold: string -> string, calls: seq<DraftCall>, other: seq<DraftCall>, i: nat)
    requires i <= |calls| == |other|
  {
    EqualPrices(RunDrafts(fold, calls[..i]).shop, RunDrafts(fold, other[..i]).shop)
  }

  ghost predicate GuardsAgreeAt(fold: string -> string, calls: seq<DraftCall>, other: seq<DraftCall>, i: nat)
    requires i < |calls| == |other|
  {
    GuardsAgree(RunDrafts(fold, calls[..i]).shop, RunDrafts(fold, other[..i]).shop, calls[i])
  }

  lemma NextEqualExactly(fold: string -> string, calls: seq<DraftCall>, other: seq<DraftCall>, i: nat)
    requires AlikeRuns(calls, other) && i < |calls| && EqualAt(fold, calls, other, i)
    ensures EqualAt(fold, calls, other, i + 1) <==> GuardsAgreeAt(fold, calls, other, i)
  {
    assert calls[..i + 1] == calls[..i] + [calls[i]] && other[..i + 1] == other[..i] + [other[i]];
    RunDraftsLonger(fold, calls[..i], calls[i]);
    RunDraftsLonger(fold, other[..i], other[i]);
    RunRecorded(fold, calls[..i]);
    RunRecorded(fold, other[..i]);
    assert AlikeCalls(calls[i], other[i]);
    hide RunDrafts, StepDraft, Rules, GuardsAgree, EqualPrices, AlikeCalls;
    StepPricesAgreeExactly(fold, RunDrafts(fold, calls[..i]).shop, RunDrafts(fold, other[..i]).shop, calls[i],
                           other[i]);
  }

  lemma {:induction false} EqualUpTo(fold: string -> string, calls: seq<DraftCall>, other: seq<DraftCall>, n: nat)
    requires AlikeRuns(calls, other) && n <= |calls|
    requires forall i | 0 <= i < n :: GuardsAgreeAt(fold, calls, other, i)
    ensures EqualAt(fold, calls, other, n)
  {
    hide GuardsAgreeAt, AlikeCalls;
    if n > 0 {
      EqualUpTo(fold, calls, other, n - 1);
      assert GuardsAgreeAt(fold, calls, other, n - 1);
      NextEqualExactly(fold, calls, other, n - 1);
    }
  }

  /** Two histories that differ only in model output give every draft the same price at every point exactly
      when each edit or approval that asks for a new price passes its guards in both or in neither. */
  lemma PricesAgreeExactly(fold: string -> string, calls: seq<DraftCall>, other: seq<DraftCall>)
    requires AlikeRuns(calls, other)
    ensures (forall i | 0 <= i <= |calls| :: EqualAt(fold, calls, other, i))
            <==> (forall i | 0 <= i < |calls| :: GuardsAgreeAt(fold, calls, other, i))
  {
    hide GuardsAgreeAt, EqualAt, AlikeCalls;
    if forall i | 0 <= i <= |calls| :: EqualAt(fold, calls, other, i) {
      forall i | 0 <= i < |calls| ensures GuardsAgreeAt(fold, calls, other, i) {
        assert EqualAt(fold, calls, other, i) && EqualAt(fold, calls, other, i + 1);
        NextEqualExactly(fold, calls, other, i);
      }
    }
    if forall i | 0 <= i < |calls| :: GuardsAgreeAt(fold, calls, other, i) {
      forall n | 0 <= n <= |calls| ensures EqualAt(fold, calls, other, n) {
        EqualUpTo(fold, calls, other, n);
      }
    }
  }

  // ----- what fails without those conditions -----

  const NO_EDIT: Edit := Edit(Unset, Unset, Unset, Unset, Unset)

  function Described(sku: Option<string>): Generation {
    Generation.Described(Payload(Some("Tea"), None, sku, [], 0.5, None))
  }

  function Upload(sku: Option<string>): DraftCall {
    GenerateDraft(1, true, None, 7, Described(sku), Schema.NoFault, Schema.NoFault)
  }

  lemma RunDraftsLonger(fold: string -> string, calls: seq<DraftCall>, call: DraftCall)
    ensures RunDrafts(fold, calls + [call]).shop == StepDraft(fold, RunDrafts(fold, calls).shop, call)
    ensures RunDrafts(fold, calls + [call]).made
         == RunDrafts(fold, calls).made + MadeBy(RunDrafts(fold, calls).shop, call)
  {
    assert (calls + [call])[..|calls|] == calls;
    hide StepDraft, Creates, Finished;
  }

  /** What an upload leaves behind: a generated draft without a price. */
  lemma UploadRun(fold: string -> string, sku: Option<string>)
    ensures RunDrafts(fold, [Upload(sku)]) == DraftTrace(TeaShop(sku, None, map[]), [])
  {
    RunDraftsLonger(fold, [], Upload(sku));
    assert [] + [Upload(sku)] == [Upload(sku)];
  }

  function PriceAtApproval(sku: Field<Option<string>>, product: int, last: Fault): DraftCall {
    Approve(1, 7, 3, Some(NO_EDIT.(price := Set(Some(500)), sku := sku)), product, Schema.NoFault, last)
  }

  /** One draft with a price, and the products made of it so far. */
  function TeaShop(sku: Option<string>, price: Option<int>, items: map<int, Item>): Shop {
    Shop([], items,
         map[7 := FreshDraft(1, None).(name := Some("Tea"), sku := sku, price := price, confidence := 0.5,
                                       status := Generated)])
  }

  function Tea(sku: string): Item {
    Item(1, None, "Tea", None, 500, sku, false)
  }

  lemma TeaApproved(fold: string -> string, sku: string, price: Option<int>, items: map<int, Item>,
                    field: Field<Option<string>>, product: int, last: Fault)
    requires sku in {"t1", "t2"} && field in {Unset, Set(Some("t2"))} && product !in items
    requires Rules(TeaShop(Some(sku), price, items))
    requires !SkuTaken(TeaShop(Some(sku), price, items), 1, Or(field, Some(sku)).value)
    ensures var shop, call := TeaShop(Some(sku), price, items), PriceAtApproval(field, product, last);
            && Creates(shop, call)
            && StepDraft(fold, shop, call).items == items[product := Tea(Or(field, Some(sku)).value)]
            && (last == Schema.AtCommit ==>
                  StepDraft(fold, shop, call)
                  == TeaShop(Or(field, Some(sku)), Some(500), items[product := Tea(Or(field, Some(sku)).value)]))
            && (last == Schema.NoFault ==> IsApprovedAs(StepDraft(fold, shop, call), 7, product))
            && PriceOf(StepDraft(fold, shop, call), 7) == Some(500)
  {
    var shop, call := TeaShop(Some(sku), price, items), PriceAtApproval(field, product, last);
    hide StepDraft, Creates, Rules, SkuTaken;
    ApprovalCreatesExactly(shop, call);
    ApproveEffect(fold, shop, call);
  }

  const CUT_SHORT: DraftCall := PriceAtApproval(Unset, 20, Schema.AtCommit)
  const RETRIED: DraftCall := PriceAtApproval(Set(Some("t2")), 21, Schema.NoFault)

  /** The draft's own commit fails after the product's: the draft is as before, but for the price. */
  lemma OrphanLeft(fold: string -> string)
    ensures RunDrafts(fold, [Upload(Some("t1")), CUT_SHORT])
         == DraftTrace(TeaShop(Some("t1"), Some(500), map[20 := Tea("t1")]), [Made(7, 20, false)])
  {
    UploadRun(fold, Some("t1"));
    RunDraftsLonger(fold, [Upload(Some("t1"))], CUT_SHORT);
    assert [Upload(Some("t1"))] + [CUT_SHORT] == [Upload(Some("t1")), CUT_SHORT];
    assert !Finished(CUT_SHORT);
    hide StepDraft, Creates, Finished, RunDrafts;
    TeaApproved(fold, "t1", None, map[], Unset, 20, Schema.AtCommit);
  }

  lemma OrphanRecorded()
    ensures Rules(TeaShop(Some("t1"), Some(500), map[20 := Tea("t1")]))
    ensures !SkuTaken(TeaShop(Some("t1"), Some(500), map[20 := Tea("t1")]), 1, "t2")
  {}

  /** When the draft's own commit fails after the product's, the product stays behind as an orphan,
      and approving the draft again under another SKU makes a second product of it. */
  lemma OrphanProduct(fold: string -> string)
    ensures var t := RunDrafts(fold, [Upload(Some("t1")), CUT_SHORT, RETRIED]);
            && t.made == [Made(7, 20, false), Made(7, 21, true)]
            && IsApprovedAs(t.shop, 7, 21) && 20 in t.shop.items
            && !Bijective(t)
  {
    var calls := [Upload(Some("t1")), CUT_SHORT];
    OrphanLeft(fold);
    OrphanRecorded();
    RunDraftsLonger(fold, calls, RETRIED);
    assert calls + [RETRIED] == [Upload(Some("t1")), CUT_SHORT, RETRIED];
    assert Finished(RETRIED);
    hide StepDraft, Creates, Finished, RunDrafts, Rules, SkuTaken, TeaShop, Tea;
    TeaApproved(fold, "t1", Some(500), map[20 := Tea("t1")], Set(Some("t2")), 21, Schema.NoFault);
    var t := RunDrafts(fold, [Upload(Some("t1")), CUT_SHORT, RETRIED]);
    assert t.made[0].draft == t.made[1].draft;
  }

  /** A price supplied with an approval that the model's missing SKU makes fail is lost with it, so
      without the second condition model output can decide a price after all. */
  lemma RefusedApprovalLosesPrice(fold: string -> string)
    ensures var approval := PriceAtApproval(Unset, 20, Schema.NoFault);
            var calls, other := [Upload(Some("t1")), approval], [Upload(None), approval];
            && AlikeRuns(calls, other)
            && PriceOf(RunDrafts(fold, calls).shop, 7) == Some(500)
            && PriceOf(RunDrafts(fold, other).shop, 7) == None
  {
    var approval := PriceAtApproval(Unset, 20, Schema.NoFault);
    assert AlikeCalls(Upload(Some("t1")), Upload(None)) && AlikeCalls(approval, approval);
    UploadRun(fold, Some("t1"));
    UploadRun(fold, None);
    RunDraftsLonger(fold, [Upload(Some("t1"))], approval);
    RunDraftsLonger(fold, [Upload(None)], approval);
    assert [Upload(Some("t1"))] + [approval] == [Upload(Some("t1")), approval];
    assert [Upload(None)] + [approval] == [Upload(None), approval];
    assert AlikeRuns([Upload(Some("t1")), approval], [Upload(None), approval]);
    hide StepDraft, Creates, RunDrafts, AlikeCalls;
    TeaApproved(fold, "t1", None, map[], Unset, 20, Schema.NoFault);
    NoSkuRefused(fold, approval);
  }

  lemma NoSkuRefused(fold: string -> string, approval: DraftCall)
    requires approval == PriceAtApproval(Unset, 20, Schema.NoFault)
    ensures StepDraft(fold, TeaShop(None, None, map[]), approval) == TeaShop(None, None, map[])
  {
    hide StepDraft, Creates;
    ApproveEffect(fold, TeaShop(None, None, map[]), approval);
  }
}
