/** A database session: private working tables over the committed ones. */
module Sessions {
  import opened Options
  import opened Schema

  class Session {
    var committed: DB
    var working: DB

    ghost predicate Valid()
      reads this
    {
      Constraints(committed) && OneRowPerProduct(working.inventories)
    }

    /** Nothing staged: how every request's session starts. */
    ghost predicate Clean()
      reads this
    {
      Valid() && working == committed
    }

    constructor (db: DB)
      requires Constraints(db)
      ensures Clean() && committed == db
    {
      committed, working := db, db;
    }

    /** Sends the staged rows to the database, which checks its indexes and CHECKs. */
    method Flush() returns (ok: bool)
      ensures ok == Constraints(working)
    {
      ok := Constraints(working);
    }

    /** Makes the staged rows durable, or raises. */
    method Commit(fault: Fault) returns (error: Option<Error>)
      requires Valid()
      modifies this`committed
      ensures Valid()
      ensures error == if !Constraints(working) then Some(IntegrityError)
                       else if fault == AtCommit then Some(DatabaseError)
                       else None
      ensures committed == if error.None? then working else old(committed)
    {
      var ok := Flush();
      if !ok {
        return Some(IntegrityError);
      }
      if fault == AtCommit {
        return Some(DatabaseError);
      }
      committed := working;
      error := None;
    }

    method Rollback()
      requires Constraints(committed)
      modifies this`working
      ensures Clean()
    {
      working := committed;
    }

    /** Reloading a row after the commit: false when the connection is lost. */
    method Refresh(fault: Fault) returns (ok: bool)
      ensures ok == (fault != AfterCommit)
    {
      ok := fault != AfterCommit;
    }

    /** `get_by_product` and `lock_for_update_by_product`. */
    method InventoryByProduct(biz: int, product: int) returns (r: Option<int>)
      requires Valid()
      ensures r == FindInventory(working.inventories, biz, product)
    {
      if i :| i in working.inventories && IsInventoryOf(working.inventories[i], biz, product) {
        InventoryFound(working.inventories, biz, product, i);
        r := Some(i);
      } else {
        r := None;
      }
    }
  }
}
