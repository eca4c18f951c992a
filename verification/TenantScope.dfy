/** The query rewriting of a tenant-scoped client (src/prisma/tenant-prisma.service.ts). */
module TenantScope {
  import opened Domain

  /** A row of any model; `data` stands for its other columns. */
  datatype Row = Row(tenant: Id, deleted: bool, data: map<string, string>)

  type Table = map<Id, Row>

  /** A top-level filter object: one condition per key, and the `_includeDeleted` marker. */
  datatype Where = Where(fields: map<string, Row -> bool>, includeDeleted: bool)

  predicate Meets(r: Row, fields: map<string, Row -> bool>) {
    forall k | k in fields :: fields[k](r)
  }

  function Select(table: Table, w: Where): set<Id> {
    set id | id in table && Meets(table[id], w.fields)
  }

  predicate SoftDeleteModel(model: string) {
    model in {"User", "Client", "Order", "Vehicle", "Service", "Branch", "Role", "WorkPost", "EmployeeProfile"}
  }

  predicate BypassModel(model: string) {
    model in {"Permission", "RolePermission", "IdempotencyKey"}
  }

  // ----- Rewriting -----

  /** `{ ...where, tenantId }` */
  function WithTenant(model: string, w: Where, tenant: Id): Where {
    if BypassModel(model) then w else w.(fields := w.fields["tenantId" := (r: Row) => r.tenant == tenant])
  }

  /** `stripIncludeDeleted`, then `{ ...where, deletedAt: null }` unless deleted rows are asked for. */
  function WithoutDeleted(model: string, w: Where): Where {
    if !SoftDeleteModel(model) then w
    else if w.includeDeleted then w.(includeDeleted := false)
    else Where(w.fields["deletedAt" := (r: Row) => !r.deleted], false)
  }

  /** findMany, findFirst, findFirstOrThrow, count, aggregate and groupBy. */
  function ReadFilter(model: string, w: Where, tenant: Id): Where {
    WithoutDeleted(model, WithTenant(model, w, tenant))
  }

  /** findUnique and findUniqueOrThrow build their filter in another order. */
  function UniqueFilter(model: string, w: Where, tenant: Id): Where {
    if BypassModel(model) && !SoftDeleteModel(model) then w
    else
      var fields := if BypassModel(model) then w.fields else w.fields["tenantId" := (r: Row) => r.tenant == tenant];
      Where(if SoftDeleteModel(model) && !w.includeDeleted then fields["deletedAt" := (r: Row) => !r.deleted] else fields, false)
  }

  /** The caller's filter without the keys that the rewriting replaces. */
  function CallerFields(w: Where): map<string, Row -> bool> {
    map k | k in w.fields && k != "tenantId" && (k != "deletedAt" || w.includeDeleted) :: w.fields[k]
  }

  lemma TenantModel(model: string)
    requires SoftDeleteModel(model)
    ensures !BypassModel(model)
  {
  }

  /**
   * A read of a soft-delete model returns exactly the tenant's rows that meet the caller's filter,
   * deleted ones only on request; both kinds of read agree, and neither passes the marker on.
   */
  lemma ReadIsScoped(model: string, w: Where, tenant: Id, table: Table)
    requires SoftDeleteModel(model)
    ensures Select(table, ReadFilter(model, w, tenant)) ==
            set id | id in table && table[id].tenant == tenant && (w.includeDeleted || !table[id].deleted)
                     && Meets(table[id], CallerFields(w))
    ensures Select(table, UniqueFilter(model, w, tenant)) == Select(table, ReadFilter(model, w, tenant))
    ensures !ReadFilter(model, w, tenant).includeDeleted && !UniqueFilter(model, w, tenant).includeDeleted
  {
    TenantModel(model);
    var read, unique, caller := ReadFilter(model, w, tenant).fields, UniqueFilter(model, w, tenant).fields, CallerFields(w);
    forall id | id in table
      ensures Meets(table[id], read) <==>
              table[id].tenant == tenant && (w.includeDeleted || !table[id].deleted) && Meets(table[id], caller)
      ensures Meets(table[id], unique) <==> Meets(table[id], read)
    {
      var r := table[id];
      assert read["tenantId"](r) == (r.tenant == tenant);
      assert !w.includeDeleted ==> read["deletedAt"](r) == !r.deleted;
      assert forall k :: k in caller ==> k in read && read[k](r) == caller[k](r);
      assert forall k :: k in read ==> k in caller || k == "tenantId" || (k == "deletedAt" && !w.includeDeleted);
      assert forall k :: k in read <==> k in unique;
      assert forall k :: k in read ==> read[k](r) == unique[k](r);
    }
  }

  /** The models of the schema with a `deletedAt` column, and those with a `tenantId` column. */
  function WithDeletedAt(): set<string> {
    {"Branch", "User", "Role", "Client", "Vehicle", "Service", "WorkPost", "Order", "EmployeeProfile"}
  }

  function WithTenantId(): set<string> {
    WithDeletedAt() + {"BookingSettings", "OrderService", "Payment", "AuditLog", "IdempotencyKey", "Subscription"}
  }

  /**
   * Deleted rows are filtered for exactly the models that have the column, and of the models with a tenant
   * column only the idempotency keys are left unscoped.
   */
  lemma ModelsFollowTheSchema(model: string)
    ensures SoftDeleteModel(model) <==> model in WithDeletedAt()
    ensures BypassModel(model) && model in WithTenantId() <==> model == "IdempotencyKey"
    ensures BypassModel(model) <==> model in {"Permission", "RolePermission", "IdempotencyKey"}
  {
  }

  /** Reads of the other models: scoped by tenant alone, or not at all. */
  lemma PlainReads(model: string, w: Where, tenant: Id, table: Table)
    requires !SoftDeleteModel(model)
    ensures BypassModel(model) ==> Select(table, ReadFilter(model, w, tenant)) == Select(table, w)
    ensures !BypassModel(model) ==>
              Select(table, ReadFilter(model, w, tenant)) ==
              set id | id in table && table[id].tenant == tenant && Meets(table[id], w.fields - {"tenantId"})
    ensures Select(table, UniqueFilter(model, w, tenant)) == Select(table, ReadFilter(model, w, tenant))
  {
    if !BypassModel(model) {
      ScopedFields(model, w, tenant, table);
    }
  }

  /** A scoped filter asks for the tenant's rows that meet the caller's other conditions. */
  lemma ScopedFields(model: string, w: Where, tenant: Id, table: Table)
    requires !BypassModel(model)
    ensures Select(table, WithTenant(model, w, tenant)) ==
            set id | id in table && table[id].tenant == tenant && Meets(table[id], w.fields - {"tenantId"})
  {
    var scoped, caller := WithTenant(model, w, tenant).fields, w.fields - {"tenantId"};
    forall id | id in table
      ensures Meets(table[id], scoped) <==> table[id].tenant == tenant && Meets(table[id], caller)
    {
      var r := table[id];
      assert scoped["tenantId"](r) == (r.tenant == tenant);
      assert forall k :: k in caller ==> k in scoped && scoped[k](r) == caller[k](r);
      assert forall k :: k in scoped ==> k in caller || k == "tenantId";
    }
  }

  // ----- Writes -----

  /** Update data: a new tenant id, if given, and a change of the other columns. */
  datatype Change = Change(tenantId: Option<Id>, apply: Row -> Row)

  function Changed(c: Change, r: Row): Row {
    c.apply(r).(tenant := if c.tenantId.Some? then c.tenantId.value else r.tenant)
  }

  datatype Write =
    | Create(id: Id, row: Row)
    | Update(where: Where, change: Change)
    | Delete(where: Where)
    | Upsert(where: Where, id: Id, row: Row, change: Change)

  function Updated(table: Table, w: Where, c: Change): Table {
    map id | id in table :: if id in Select(table, w) then Changed(c, table[id]) else table[id]
  }

  /** An insert always carries the client's tenant; an existing id is refused. */
  function Inserted(table: Table, id: Id, row: Row, tenant: Id): Table {
    if id in table then table else table[id := row.(tenant := tenant)]
  }

  /** What a write through `forTenant(tenant)` does to the table of a tenant model. */
  function AfterWrite(model: string, table: Table, tenant: Id, op: Write): Table
    requires !BypassModel(model)
  {
    match op
    case Create(id, row) => Inserted(table, id, row, tenant)
    case Update(w, c) => Updated(table, WithTenant(model, w, tenant), c)
    case Delete(w) => table - Select(table, WithTenant(model, w, tenant))
    case Upsert(w, id, row, c) =>
      if Select(table, WithTenant(model, w, tenant)) == {} then Inserted(table, id, row, tenant)
      else Updated(table, WithTenant(model, w, tenant), c)
  }

  function AfterWrites(model: string, table: Table, tenant: Id, ops: seq<Write>): Table
    requires !BypassModel(model)
    decreases |ops|
  {
    if ops == [] then table else AfterWrites(model, AfterWrite(model, table, tenant, ops[0]), tenant, ops[1..])
  }

  /** The rows of everyone else. */
  function Others(table: Table, tenant: Id): Table {
    map id | id in table && table[id].tenant != tenant :: table[id]
  }

  predicate KeepsTenant(c: Change, tenant: Id) {
    c.tenantId.None? || c.tenantId.value == tenant
  }

  predicate StaysHome(op: Write, tenant: Id) {
    match op
    case Update(_, c) => KeepsTenant(c, tenant)
    case Upsert(_, _, _, c) => KeepsTenant(c, tenant)
    case _ => true
  }

  lemma SelectedAreOwn(model: string, table: Table, w: Where, tenant: Id, id: Id)
    requires !BypassModel(model) && id in Select(table, WithTenant(model, w, tenant))
    ensures table[id].tenant == tenant
  {
    var fields := WithTenant(model, w, tenant).fields;
    assert fields["tenantId"](table[id]);
  }

  ghost predicate SelectsOwn(table: Table, w: Where, tenant: Id) {
    forall id :: id in Select(table, w) ==> table[id].tenant == tenant
  }

  lemma UpdatedKeepsOthers(table: Table, w: Where, c: Change, tenant: Id)
    requires SelectsOwn(table, w, tenant) && KeepsTenant(c, tenant)
    ensures Others(Updated(table, w, c), tenant) == Others(table, tenant)
  {
    hide Select;
  }

  lemma DeletedKeepsOthers(table: Table, w: Where, tenant: Id)
    requires SelectsOwn(table, w, tenant)
    ensures Others(table - Select(table, w), tenant) == Others(table, tenant)
  {
  }

  lemma WriteKeepsOthers(model: string, table: Table, tenant: Id, op: Write)
    requires !BypassModel(model) && StaysHome(op, tenant)
    ensures Others(AfterWrite(model, table, tenant, op), tenant) == Others(table, tenant)
  {
    if !op.Create? {
      var w := WithTenant(model, op.where, tenant);
      forall id | id in Select(table, w)
        ensures table[id].tenant == tenant
      {
        SelectedAreOwn(model, table, op.where, tenant, id);
      }
      if op.Delete? {
        DeletedKeepsOthers(table, w, tenant);
      } else {
        UpdatedKeepsOthers(table, w, op.change, tenant);
      }
    }
    hide Select, WithTenant, Updated;
  }

  /** A sequence of writes whose update data names no other tenant leaves every other tenant's rows alone. */
  lemma {:induction false} WritesKeepOthers(model: string, table: Table, tenant: Id, ops: seq<Write>)
    requires !BypassModel(model) && forall i :: 0 <= i < |ops| ==> StaysHome(ops[i], tenant)
    ensures Others(AfterWrites(model, table, tenant, ops), tenant) == Others(table, tenant)
    decreases |ops|
  {
    if ops != [] {
      WriteKeepsOthers(model, table, tenant, ops[0]);
      WritesKeepOthers(model, AfterWrite(model, table, tenant, ops[0]), tenant, ops[1..]);
    }
  }

  /** Update data that names another tenant hands a row over: the condition on the data is necessary. */
  lemma UpdateKeepsOthersIff(model: string, tenant: Id, c: Change)
    requires !BypassModel(model)
    ensures (forall table, w :: Others(AfterWrite(model, table, tenant, Update(w, c)), tenant) == Others(table, tenant))
            <==> KeepsTenant(c, tenant)
  {
    if KeepsTenant(c, tenant) {
      forall table, w
        ensures Others(AfterWrite(model, table, tenant, Update(w, c)), tenant) == Others(table, tenant)
      {
        WriteKeepsOthers(model, table, tenant, Update(w, c));
      }
    } else {
      var table: Table, w := map[Id(0) := Row(tenant, false, map[])], Where(map[], false);
      var after := AfterWrite(model, table, tenant, Update(w, c));
      assert Id(0) in Select(table, WithTenant(model, w, tenant));
      assert after[Id(0)].tenant == c.tenantId.value;
      assert Id(0) in Others(after, tenant) && Id(0) !in Others(table, tenant);
    }
  }

  /** The tenant's rows that a write is for. */
  function Aimed(table: Table, w: Where, tenant: Id): set<Id> {
    set id | id in table && table[id].tenant == tenant && Meets(table[id], w.fields - {"tenantId"})
  }

  /** What a write does: it changes or removes exactly the tenant's rows it is for, or adds one row of the tenant. */
  lemma WriteEffects(model: string, table: Table, tenant: Id, op: Write)
    requires !BypassModel(model)
    ensures var after := AfterWrite(model, table, tenant, op);
            match op
            case Create(id, row) =>
              after == if id in table then table else table[id := row.(tenant := tenant)]
            case Update(w, c) =>
              && after.Keys == table.Keys
              && forall id :: id in table ==> after[id] == if id in Aimed(table, w, tenant) then Changed(c, table[id]) else table[id]
            case Delete(w) =>
              after == map id | id in table && id !in Aimed(table, w, tenant) :: table[id]
            case Upsert(w, id, row, c) =>
              if Aimed(table, w, tenant) == {} then after == AfterWrite(model, table, tenant, Write.Create(id, row))
              else after == AfterWrite(model, table, tenant, Update(w, c))
  {
    if !op.Create? {
      ScopedFields(model, op.where, tenant, table);
    }
    hide Select, WithTenant, Changed;
  }

  /** Changed rows take the data's columns, and its tenant only where it names one. */
  lemma ChangedRow(c: Change, r: Row)
    ensures Changed(c, r).(tenant := c.apply(r).tenant) == c.apply(r)
    ensures Changed(c, r).tenant == match c.tenantId case Some(t) => t case None => r.tenant
  {
  }

  /** The client returned by `forTenant`: each hook rewrites the arguments and runs the query. */
  class TenantClient {
    const tenant: Id
    const model: string
    var rows: Table

    constructor (tenant: Id, model: string, rows: Table)
      ensures this.tenant == tenant && this.model == model && this.rows == rows
    {
      this.tenant, this.model, this.rows := tenant, model, rows;
    }

    method FindMany(args: Where) returns (ids: set<Id>)
      ensures ids == Select(rows, ReadFilter(model, args, tenant))
    {
      var where := args;
      if !BypassModel(model) {
        where := where.(fields := where.fields["tenantId" := (r: Row) => r.tenant == tenant]);
      }
      if SoftDeleteModel(model) {
        var includeDeleted := where.includeDeleted;
        where := where.(includeDeleted := false);
        if !includeDeleted {
          where := where.(fields := where.fields["deletedAt" := (r: Row) => !r.deleted]);
        }
      }
      ids := Select(rows, where);
    }

    method UpdateMany(args: Where, c: Change)
      requires !BypassModel(model)
      modifies this
      ensures rows == AfterWrite(model, old(rows), tenant, Update(args, c))
    {
      var where := args.(fields := args.fields["tenantId" := (r: Row) => r.tenant == tenant]);
      var selected := Select(rows, where);
      rows := map id | id in rows :: if id in selected then Changed(c, rows[id]) else rows[id];
    }

    method DeleteMany(args: Where)
      requires !BypassModel(model)
      modifies this
      ensures rows == AfterWrite(model, old(rows), tenant, Delete(args))
    {
      var where := args.(fields := args.fields["tenantId" := (r: Row) => r.tenant == tenant]);
      rows := rows - Select(rows, where);
    }

    method Create(id: Id, data: Row)
      requires !BypassModel(model)
      modifies this
      ensures rows == AfterWrite(model, old(rows), tenant, Write.Create(id, data))
    {
      var scoped := data.(tenant := tenant);
      if id !in rows {
        rows := rows[id := scoped];
      }
    }

    method Upsert(args: Where, id: Id, data: Row, c: Change)
      requires !BypassModel(model)
      modifies this
      ensures rows == AfterWrite(model, old(rows), tenant, Write.Upsert(args, id, data, c))
    {
      var where := args.(fields := args.fields["tenantId" := (r: Row) => r.tenant == tenant]);
      if Select(rows, where) == {} {
        Create(id, data);
      } else {
        UpdateMany(args, c);
      }
    }
  }
}
