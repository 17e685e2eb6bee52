/** What each call on a draft answers and writes, in every case and under every fault, said of the rows and
    the inputs alone. */
module DraftAnswers {
  import opened Options
  import opened CatalogAi
  import opened Approvals
  import Schema

  // ----- text -----

  predicate AllBlank(s: string) {
    forall c | c in s :: Blank(c)
  }

  /** `t` is `s` without the blanks around it. */
  ghost predicate StrippedFrom(t: string, s: string) {
    && (exists before, after :: AllBlank(before) && AllBlank(after) && s == before + t + after)
    && (t != "" ==> t[0] !in " \t\n\r" && t[|t| - 1] !in " \t\n\r")
  }

  lemma BlankInFront(t: string, c: char, s: string)
    requires StrippedFrom(t, s) && Blank(c)
    ensures StrippedFrom(t, [c] + s)
  {
    var before, after :| AllBlank(before) && AllBlank(after) && s == before + t + after;
    assert [c] + s == ([c] + before) + t + after && AllBlank([c] + before);
  }

  lemma BlankBehind(t: string, s: string, c: char)
    requires StrippedFrom(t, s) && Blank(c)
    ensures StrippedFrom(t, s + [c])
  {
    var before, after :| AllBlank(before) && AllBlank(after) && s == before + t + after;
    assert s + [c] == before + t + (after + [c]) && AllBlank(after + [c]);
  }

  lemma NothingToStrip(s: string)
    requires s != "" ==> !Blank(s[0]) && !Blank(s[|s| - 1])
    ensures StrippedFrom(s, s)
  {
    assert AllBlank("") && s == "" + s + "";
  }

  /** `str.strip`: the blanks at both ends go, all of them and nothing else. */
  lemma {:induction false} StripRemovesBlanks(s: string)
    ensures StrippedFrom(Strip(s), s)
    decreases |s|
  {
    hide StrippedFrom;
    if s == "" {
      NothingToStrip(s);
    } else if Blank(s[0]) {
      StripRemovesBlanks(s[1..]);
      assert s == [s[0]] + s[1..];
      BlankInFront(Strip(s), s[0], s[1..]);
    } else if Blank(s[|s| - 1]) {
      StripRemovesBlanks(s[..|s| - 1]);
      assert s == s[..|s| - 1] + [s[|s| - 1]];
      BlankBehind(Strip(s), s[..|s| - 1], s[|s| - 1]);
    } else {
      NothingToStrip(s);
    }
  }

  // ----- generation -----

  /** The first category in list order that is the business's and has the folded name suggested. */
  ghost predicate FirstOwn(fold: string -> string, categories: seq<Category>, biz: int, suggestion: string,
                           category: Option<int>)
  {
    var wanted := fold(Strip(suggestion));
    match category
    case None => forall c | c in categories && c.biz == biz :: fold(Strip(c.name)) != wanted
    case Some(id) =>
      exists i | 0 <= i < |categories| ::
        && categories[i].id == id && categories[i].biz == biz && fold(Strip(categories[i].name)) == wanted
        && forall j | 0 <= j < i && categories[j].biz == biz :: fold(Strip(categories[j].name)) != wanted
  }

  lemma {:induction false} FirstOwnFound(fold: string -> string, categories: seq<Category>, biz: int,
                                         suggestion: string)
    ensures FirstOwn(fold, categories, biz, suggestion,
                     FirstNamed(fold, ListCategories(categories, biz), Folded(fold, suggestion)))
  {
    hide Strip, FirstOwn;
    if categories == [] {
      NoneOwn(fold, biz, suggestion);
    } else {
      var first, rest, wanted := categories[0], categories[1..], Folded(fold, suggestion);
      FirstOwnFound(fold, rest, biz, suggestion);
      var list := ListCategories(rest, biz);
      assert ([first] + list)[1..] == list && [] + list == list;
      if first.biz == biz && Folded(fold, first.name) == wanted {
        OwnInFront(fold, first, rest, biz, suggestion);
      } else {
        OtherInFront(fold, first, rest, biz, suggestion, FirstNamed(fold, list, wanted));
      }
      assert [first] + rest == categories;
    }
  }

  lemma NoneOwn(fold: string -> string, biz: int, suggestion: string)
    ensures FirstOwn(fold, [], biz, suggestion, None)
  {}

  lemma OwnInFront(fold: string -> string, first: Category, rest: seq<Category>, biz: int, suggestion: string)
    requires first.biz == biz && Folded(fold, first.name) == Folded(fold, suggestion)
    ensures FirstOwn(fold, [first] + rest, biz, suggestion, Some(first.id))
  {
    assert ([first] + rest)[0] == first;
  }

  lemma OtherInFront(fold: string -> string, first: Category, rest: seq<Category>, biz: int, suggestion: string,
                     found: Option<int>)
    requires first.biz != biz || Folded(fold, first.name) != Folded(fold, suggestion)
    requires FirstOwn(fold, rest, biz, suggestion, found)
    ensures FirstOwn(fold, [first] + rest, biz, suggestion, found)
  {
    hide Strip;
    var categories, wanted := [first] + rest, Folded(fold, suggestion);
    if found.Some? {
      var i :| && 0 <= i < |rest| && rest[i].id == found.value && rest[i].biz == biz
               && fold(Strip(rest[i].name)) == wanted
               && forall j | 0 <= j < i && rest[j].biz == biz :: fold(Strip(rest[j].name)) != wanted;
      assert categories[i + 1] == rest[i];
      assert forall j | 0 < j < i + 1 :: categories[j] == rest[j - 1];
    }
  }

  /** One generation's commit: a failed one leaves a FAILED draft with the provider's code, a successful one
      fills every field but the price, with a category of the business's own. */
  ghost predicate GenerationDone(fold: string -> string, shop: Shop, id: int, generation: Generation, fault: Fault,
                            r: Result)
    requires id in shop.drafts
  {
    var d := shop.drafts[id];
    if fault == Schema.AtCommit then r == Result(shop, Err(DatabaseError))
    else
      && id in r.shop.drafts && r.shop == shop.(drafts := shop.drafts[id := r.shop.drafts[id]])
      && var next := r.shop.drafts[id];
      match generation
      case ProviderError(code) =>
        && next == d.(status := Failed, error := Some(code))
        && r.reply == Err(if fault == Schema.NoFault then GenerationFailed else DatabaseError)
      case Described(p) =>
        && next == Draft(d.biz, DraftStatus.Generated, p.name, p.description, p.suggestion, next.category, p.sku,
                         d.price, p.tags, p.confidence, None, d.requestKey, d.approvedAs, d.approver)
        && (p.suggestion.None? || p.suggestion.value == "" ==> next.category == None)
        && (p.suggestion.Some? && p.suggestion.value != "" ==>
              FirstOwn(fold, shop.categories, d.biz, p.suggestion.value, next.category))
        && r.reply == if fault == Schema.NoFault then Ok(id) else Err(DatabaseError)
  }

  lemma GenerationExactly(fold: string -> string, shop: Shop, id: int, generation: Generation, fault: Fault)
    requires Rules(shop) && id in shop.drafts
    ensures GenerationDone(fold, shop, id, generation, fault, RunGenerationSpec(fold, shop, id, generation, fault))
  {
    hide Rules, FirstOwn, FirstNamed, ListCategories;
    var d := shop.drafts[id];
    match generation
    case ProviderError(code) =>
      StatusChangeKeepsRules(shop, id, d.(status := Failed, error := Some(code)));
    case Described(p) =>
      StatusChangeKeepsRules(shop, id, ApplyPayload(fold, shop, d, p).(status := DraftStatus.Generated, error := None));
      if p.suggestion.Some? {
        FirstOwnFound(fold, shop.categories, d.biz, p.suggestion.value);
      }
  }

  /** An upload in every case: an unacceptable one is refused, a known request key gets its old draft, and a
      new draft is stored before the provider is asked. */
  lemma GenerateDraftExactly(fold: string -> string, shop: Shop, biz: int, acceptable: bool, key: Option<string>,
                             id: int, generation: Generation, first: Fault, last: Fault)
    requires Rules(shop) && id !in shop.drafts
    ensures var r := GenerateDraftSpec(fold, shop, biz, acceptable, key, id, generation, first, last);
            if !acceptable then r == Result(shop, Err(Validation))
            else
              && (forall i | i in shop.drafts && key.Some? && shop.drafts[i].biz == biz
                             && shop.drafts[i].requestKey == key ::
                    r == Result(shop, Ok(i)))
              && ((forall i | i in shop.drafts && key.Some? && shop.drafts[i].biz == biz ::
                     shop.drafts[i].requestKey != key) ==>
                    var pending := shop.(drafts := shop.drafts[id :=
                      Draft(biz, Pending, None, None, None, None, None, None, [], 0.0, None, key, None, None)]);
                    match first
                    case AtCommit => r == Result(shop, Err(DatabaseError))
                    case AfterCommit => r == Result(pending, Err(DatabaseError))
                    case NoFault => GenerationDone(fold, pending, id, generation, last, r))
  {
    hide Rules, RunGenerationSpec, GenerationDone;
    if key.Some? {
      forall i | i in shop.drafts && Keyed(shop.drafts[i], biz, key.value)
        ensures FindKeyed(shop.drafts, biz, key.value) == Some(i)
      {
        KeyedFound(shop, biz, key.value, i);
      }
    }
    if key.Some? ==> FindKeyed(shop.drafts, biz, key.value).None? {
      FreshKeepsRules(shop, biz, key, id);
      GenerationExactly(fold, PutDraft(shop, id, FreshDraft(biz, key)), id, generation, last);
    }
  }

  lemma RegenerateExactly(fold: string -> string, shop: Shop, biz: int, id: int, generation: Generation, fault: Fault)
    requires Rules(shop)
    ensures var r := RegenerateSpec(fold, shop, biz, id, generation, fault);
            if id !in shop.drafts || shop.drafts[id].biz != biz then r == Result(shop, Err(NotFound))
            else if shop.drafts[id].status == Approved || shop.drafts[id].status == Rejected
            then r == Result(shop, Err(Conflict))
            else GenerationDone(fold, shop, id, generation, fault, r)
  {
    hide Rules, RunGenerationSpec, GenerationDone;
    if id in shop.drafts {
      GenerationExactly(fold, shop, id, generation, fault);
    }
  }

  // ----- review -----

  /** The commit of one draft row. */
  ghost predicate Saved(shop: Shop, id: int, d: Draft, fault: Fault, r: Result) {
    match fault
    case AtCommit => r == Result(shop, Err(DatabaseError))
    case AfterCommit => r == Result(shop.(drafts := shop.drafts[id := d]), Err(DatabaseError))
    case NoFault => r == Result(shop.(drafts := shop.drafts[id := d]), Ok(id))
  }

  /** The edit's category is none, or one of the business's. */
  ghost predicate OwnCategory(shop: Shop, biz: int, category: Option<int>) {
    category.Some? ==> exists c | c in shop.categories :: c.biz == biz && c.id == category.value
  }

  /** What an edit leaves: the fields it sets as it sets them, the others as they were. */
  function Reviewed(d: Draft, edit: Edit): Draft {
    Draft(d.biz, d.status,
          match edit.name case Set(v) => v case Unset => d.name,
          match edit.description case Set(v) => v case Unset => d.description,
          d.suggestion,
          match edit.category case Set(v) => v case Unset => d.category,
          match edit.sku case Set(v) => v case Unset => d.sku,
          match edit.price case Set(v) => v case Unset => d.price,
          d.tags, d.confidence, d.error, d.requestKey, d.approvedAs, d.approver)
  }

  lemma EditDraftExactly(shop: Shop, biz: int, id: int, edit: Edit, fault: Fault)
    requires Rules(shop)
    ensures var r := EditDraftSpec(shop, biz, id, edit, fault);
            if id !in shop.drafts || shop.drafts[id].biz != biz then r == Result(shop, Err(NotFound))
            else if shop.drafts[id].status == Approved || shop.drafts[id].status == Rejected
            then r == Result(shop, Err(Conflict))
            else if edit.category.Set? && !OwnCategory(shop, biz, edit.category.value)
            then r == Result(shop, Err(Validation))
            else Saved(shop, id, Reviewed(shop.drafts[id], edit), fault, r)
  {
    hide Rules;
    if id in shop.drafts {
      StatusChangeKeepsRules(shop, id, Edited(shop.drafts[id], edit));
    }
  }

  lemma RejectExactly(shop: Shop, biz: int, id: int, fault: Fault)
    requires Rules(shop)
    ensures var r := RejectSpec(shop, biz, id, fault);
            if id !in shop.drafts || shop.drafts[id].biz != biz then r == Result(shop, Err(NotFound))
            else if shop.drafts[id].status == Approved || shop.drafts[id].status == Rejected
            then r == Result(shop, Err(Conflict))
            else Saved(shop, id, shop.drafts[id].(status := Rejected), fault, r)
  {
    hide Rules;
    if id in shop.drafts {
      StatusChangeKeepsRules(shop, id, shop.drafts[id].(status := Rejected));
    }
  }

  // ----- approval -----

  /** A draft with its edit lacks a name, an SKU or a price. */
  predicate Incomplete(d: Draft) {
    d.name.None? || Strip(d.name.value) == "" || d.sku.None? || Strip(d.sku.value) == "" || d.price.None?
  }

  /** What an approval of a complete draft with a free SKU leaves behind, commit by commit. */
  ghost predicate ProductMade(shop: Shop, id: int, d: Draft, approver: int, product: int, first: Fault, last: Fault,
                              r: Result)
    requires d.name.Some? && d.sku.Some? && d.price.Some?
  {
    var made := Item(d.biz, d.category, Strip(d.name.value), d.description, d.price.value, Strip(d.sku.value), false);
    var alone := Shop(shop.categories, shop.items[product := made], shop.drafts[id := d]);
    var approved := Draft(d.biz, Approved, d.name, d.description, d.suggestion, d.category, d.sku, d.price, d.tags,
                          d.confidence, d.error, d.requestKey, Some(product), Some(approver));
    if first == Schema.AtCommit then r == Result(shop, Err(DatabaseError))
    else if first == Schema.AfterCommit || last == Schema.AtCommit then r == Result(alone, Err(DatabaseError))
    else r == Result(alone.(drafts := alone.drafts[id := approved]), Ok(product))
  }

  /** An approval in every case, the refusals in their order. */
  lemma ApproveExactly(shop: Shop, biz: int, id: int, approver: int, edit: Option<Edit>, product: int, first: Fault,
                       last: Fault)
    requires Rules(shop) && product !in shop.items
    ensures var r := ApproveSpec(shop, biz, id, approver, edit, product, first, last);
            if id !in shop.drafts || shop.drafts[id].biz != biz then r == Result(shop, Err(NotFound))
            else
              var d := shop.drafts[id];
              var edited := if edit.Some? then Reviewed(d, edit.value) else d;
              if d.status == Approved && d.approvedAs.Some? then
                var p := d.approvedAs.value;
                var there := p in shop.items && shop.items[p].biz == biz && !shop.items[p].deleted;
                r == Result(shop, if there then Ok(p) else Err(NotFound))
              else if d.status != DraftStatus.Generated then r == Result(shop, Err(Conflict))
              else if edit.Some? && edit.value.category.Set? && !OwnCategory(shop, biz, edit.value.category.value)
              then r == Result(shop, Err(Validation))
              else if Incomplete(edited) then r == Result(shop, Err(Validation))
              else if !OwnCategory(shop, biz, edited.category) then r == Result(shop, Err(Validation))
              else if exists i | i in shop.items ::
                        && shop.items[i].biz == biz && !shop.items[i].deleted
                        && shop.items[i].sku == Strip(edited.sku.value)
              then r == Result(shop, Err(Conflict))
              else ProductMade(shop, id, edited, approver, product, first, last, r)
  {
    hide Rules, Strip, CreateProductSpec;
    if id in shop.drafts && shop.drafts[id].biz == biz {
      var d := shop.drafts[id];
      var edited := WithEdit(d, edit);
      assert edited == if edit.Some? then Reviewed(d, edit.value) else d;
      if BuildProduct(edited).Some? {
        ProductMadeExactly(shop, biz, id, edited, product, first);
      }
    }
  }

  lemma ProductMadeExactly(shop: Shop, biz: int, id: int, d: Draft, product: int, first: Fault)
    requires Rules(shop) && product !in shop.items && id in shop.drafts && BuildProduct(d).Some? && d.biz == biz
    requires shop.drafts[id].biz == biz && d.requestKey == shop.drafts[id].requestKey
    ensures var item := BuildProduct(d).value;
            var r := CreateProductSpec(shop, PutDraft(shop, id, d), item, product, first);
            var next := Shop(shop.categories, shop.items[product := item], shop.drafts[id := d]);
            if !OwnCategory(shop, biz, d.category) then r == Result(shop, Err(Validation))
            else if exists i | i in shop.items ::
                      shop.items[i].biz == biz && !shop.items[i].deleted && shop.items[i].sku == item.sku
            then r == Result(shop, Err(Conflict))
            else match first
                 case AtCommit => r == Result(shop, Err(DatabaseError))
                 case AfterCommit => r == Result(next, Err(DatabaseError))
                 case NoFault => r == Result(next, Ok(product))
  {
    hide Rules, Strip;
    StatusChangeKeepsRules(shop, id, d);
    if !SkuTaken(shop, biz, BuildProduct(d).value.sku) {
      NewSkuKeepsRules(PutDraft(shop, id, d), BuildProduct(d).value, product);
    }
  }
}
