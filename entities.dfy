/**
 * The persisted entity classes Unit, Tenant and Payment
 * (src/lib/database/unit.py, tenant.py, payment.py) as one generic class.
 * What differs between the three source classes is data: the class name,
 * the table, the ordered VALIDATION_DICT, the validated properties, the row
 * layout and the order in which `__init__` assigns the properties. That data
 * is a `Schema`; an `Entity` is an instance and a `Cache` is the class-level
 * `all` dictionary. The database is an abstract row source: rows come in as
 * parameters and a fresh row id is a parameter of `Save`.
 */
module Entities {
  import opened Wrappers
  import opened PyValues
  import opened Validation

  /** One table row: the primary key and the remaining columns in table order. */
  datatype Row = Row(id: int, cells: seq<Value>)

  datatype Schema = Schema(
    className: string,
    table: string,
    prompts: seq<string>,              // VALIDATION_DICT keys, in order
    setters: map<string, Validator>,   // every property whose setter validates
    columns: seq<string>,              // the row layout after the id column
    ctorOrder: seq<string>,            // the order in which __init__ assigns properties
    rowToCtor: seq<int>)               // for each constructor argument, its cell in a row

  /** The shape every entity class has: prompted keys and columns are validated properties. */
  ghost predicate WellFormed(s: Schema) {
    && (forall k :: k in s.prompts ==> k in s.setters)
    && (forall k :: k in s.columns ==> k in s.setters)
    && |s.rowToCtor| == |s.ctorOrder|
    && (forall i :: 0 <= i < |s.rowToCtor| ==>
          0 <= s.rowToCtor[i] < |s.columns| && s.columns[s.rowToCtor[i]] == s.ctorOrder[i])
  }

  const UnitColumns: seq<string> := ["acquisition_date", "address", "monthly_mortgage", "monthly_rent", "late_fee"]

  function UnitSchema(): (s: Schema)
    ensures WellFormed(s)
  {
    Schema("Unit", "units", UnitColumns,
      map["acquisition_date" := DateValidator, "address" := AddressValidator,
          "monthly_mortgage" := DollarAmtValidator, "monthly_rent" := DollarAmtValidator,
          "late_fee" := DollarAmtValidator],
      UnitColumns, UnitColumns, [0, 1, 2, 3, 4])
  }

  const TenantPrompts: seq<string> := ["name", "email_address", "phone_number", "move_in_date", "move_out_date"]
  const TenantColumns: seq<string> := TenantPrompts + ["unit_id"]

  /** `unitExists` stands for `Unit.find_by_id`, which the unit_id setter consults. */
  function TenantSchema(unitExists: int -> bool): (s: Schema)
    ensures WellFormed(s)
  {
    Schema("Tenant", "tenants", TenantPrompts,
      map["name" := NameValidator, "email_address" := EmailValidator,
          "phone_number" := PhoneValidator, "move_in_date" := DateValidator,
          "move_out_date" := OptionalDateValidator, "unit_id" := ParentIdValidator(unitExists)],
      TenantColumns, TenantColumns, [0, 1, 2, 3, 4, 5])
  }

  const PaymentPrompts: seq<string> := ["amount", "pmt_date", "method", "category"]

  /** `tenantExists` stands for `Tenant.find_by_id`, which the tenant_id setter consults. */
  function PaymentSchema(tenantExists: int -> bool): (s: Schema)
    ensures WellFormed(s)
  {
    Schema("Payment", "payments", PaymentPrompts,
      map["amount" := DollarAmtValidator, "pmt_date" := DateValidator,
          "method" := MethodValidator, "category" := PmtCategoryValidator,
          "tenant_id" := ParentIdValidator(tenantExists)],
      ["category", "amount", "pmt_date", "method", "tenant_id"],
      ["amount", "pmt_date", "method", "category", "tenant_id"],
      [1, 2, 3, 0, 4])
  }

  /**
   * `setattr(inst, key, v)`: a property with a validating setter stores what
   * the validator returns, or raises and stores nothing; any other attribute
   * is stored as given.
   */
  function SetField(s: Schema, fields: map<string, Value>, key: string, v: Value): (r: Result<map<string, Value>, Error>)
    ensures key in s.setters ==>
      (r.Success? <==> s.setters[key].check(v).Success?) &&
      (r.Success? ==> r.value == fields[key := s.setters[key].check(v).value])
    ensures key !in s.setters ==> r == Success(fields[key := v])
  {
    if key in s.setters then
      match s.setters[key].check(v)
      case Success(w) => Success(fields[key := w])
      case Failure(e) => Failure(e)
    else Success(fields[key := v])
  }

  /** A run of property assignments: stops at the first one that raises, keeping the earlier ones. */
  function AssignAll(s: Schema, fields: map<string, Value>, keys: seq<string>, vals: seq<Value>): (r: (map<string, Value>, Option<Error>))
    requires |keys| == |vals|
    decreases |keys|
  {
    if keys == [] then (fields, None)
    else
      match SetField(s, fields, keys[0], vals[0])
      case Success(f) => AssignAll(s, f, keys[1..], vals[1..])
      case Failure(e) => (fields, Some(e))
  }

  /** When no assignment raises, each refreshed key holds its validated value. */
  lemma {:induction false} AssignAllStores(s: Schema, fields: map<string, Value>, keys: seq<string>, vals: seq<Value>, j: int)
    requires |keys| == |vals| && 0 <= j < |keys|
    requires AssignAll(s, fields, keys, vals).1.None?
    requires keys[j] in s.setters && keys[j] !in keys[j + 1..]
    ensures s.setters[keys[j]].check(vals[j]).Success?
    ensures keys[j] in AssignAll(s, fields, keys, vals).0
    ensures AssignAll(s, fields, keys, vals).0[keys[j]] == s.setters[keys[j]].check(vals[j]).value
    decreases |keys|
  {
    var f := SetField(s, fields, keys[0], vals[0]);
    assert f.Success?;
    if j == 0 {
      AssignAllKeeps(s, f.value, keys[1..], vals[1..], keys[0]);
    } else {
      assert keys[1..][j - 1..] == keys[j..];
      AssignAllStores(s, f.value, keys[1..], vals[1..], j - 1);
    }
  }

  /** Assignments to other keys leave a key's value alone. */
  lemma {:induction false} AssignAllKeeps(s: Schema, fields: map<string, Value>, keys: seq<string>, vals: seq<Value>, key: string)
    requires |keys| == |vals| && key in fields && key !in keys
    ensures key in AssignAll(s, fields, keys, vals).0
    ensures AssignAll(s, fields, keys, vals).0[key] == fields[key]
    decreases |keys|
  {
    if keys != [] {
      match SetField(s, fields, keys[0], vals[0])
      case Success(f) => AssignAllKeeps(s, f, keys[1..], vals[1..], key);
      case Failure(_) =>
    }
  }

  /** The constructor arguments a row supplies, in constructor order. */
  function RowValues(s: Schema, row: Row): (vals: seq<Value>)
    requires WellFormed(s) && |row.cells| == |s.columns|
    ensures |vals| == |s.ctorOrder|
  {
    seq(|s.ctorOrder|, i requires 0 <= i < |s.ctorOrder| => row.cells[s.rowToCtor[i]])
  }

  /** What `__init__` builds from its arguments, or the first exception a setter raises. */
  function Build(s: Schema, vals: seq<Value>): Result<map<string, Value>, Error>
    requires |vals| == |s.ctorOrder|
  {
    var (f, err) := AssignAll(s, map[], s.ctorOrder, vals);
    if err.Some? then Failure(err.value) else Success(f)
  }

  /** An instance of an entity class. */
  class Entity {
    const schema: Schema
    var id: Value
    var fields: map<string, Value>

    constructor (schema: Schema, id: Value, fields: map<string, Value>)
      ensures this.schema == schema && this.id == id && this.fields == fields
    {
      this.schema := schema;
      this.id := id;
      this.fields := fields;
    }

    /** `getattr(self, name)`: None when the attribute does not exist (AttributeError). */
    function Attr(name: string): Option<Value>
      reads this
    {
      if name == "id" then Some(id) else if name in fields then Some(fields[name]) else None
    }

    /** An assignment through the property setter. */
    method Set(key: string, v: Value) returns (err: Option<Error>)
      modifies this`fields
      ensures var r := SetField(schema, old(fields), key, v);
        && (r.Success? ==> err.None? && fields == r.value)
        && (r.Failure? ==> err == Some(r.error) && fields == old(fields))
    {
      var r := SetField(schema, fields, key, v);
      if r.Success? {
        fields := r.value;
        err := None;
      } else {
        err := Some(r.error);
      }
    }
  }

  /** The class-level `all` dictionary of one entity class. */
  class Cache {
    const schema: Schema
    var all: map<int, Entity>

    ghost predicate Valid()
      reads this, all.Values
    {
      forall k :: k in all ==> all[k].schema == schema
    }

    constructor (schema: Schema)
      ensures this.schema == schema && all == map[] && Valid()
    {
      this.schema := schema;
      all := map[];
    }
  }

  /** `cls(...)`: a new instance with every property refreshed through its setter. */
  method New(s: Schema, id: Value, args: seq<Value>) returns (r: Result<Entity, Error>)
    requires |args| == |s.ctorOrder|
    ensures Build(s, args).Failure? ==> r == Failure(Build(s, args).error)
    ensures Build(s, args).Success? ==>
      r.Success? && fresh(r.value) && r.value.schema == s && r.value.id == id &&
      r.value.fields == Build(s, args).value
  {
    var b := Build(s, args);
    if b.Failure? {
      return Failure(b.error);
    }
    var e := new Entity(s, id, b.value);
    return Success(e);
  }

  /** The fields of the instance cached under `id`, if there is one. */
  ghost function CachedFields(all: map<int, Entity>, id: int): (f: Option<map<string, Value>>)
    reads all.Values
    ensures f.Some? <==> id in all
  {
    if id in all then Some(all[id].fields) else None
  }

  /**
   * The fields `instance_from_db(row)` leaves on the instance it returns,
   * given the fields of the instance cached under the row's id: the cached
   * instance refreshed from the row in column order, or a new build from the
   * row when the id is not cached.
   */
  function RowResult(s: Schema, cached: Option<map<string, Value>>, row: Row): (r: Result<map<string, Value>, Error>)
    requires WellFormed(s) && |row.cells| == |s.columns|
    ensures cached.Some? ==>
      var a := AssignAll(s, cached.value, s.columns, row.cells);
      (r.Success? <==> a.1.None?) && (r.Success? ==> r.value == a.0) && (r.Failure? ==> r.error == a.1.value)
    ensures cached.None? ==> r == Build(s, RowValues(s, row))
  {
    if cached.Some? then
      var a := AssignAll(s, cached.value, s.columns, row.cells);
      if a.1.None? then Success(a.0) else Failure(a.1.value)
    else Build(s, RowValues(s, row))
  }

  /**
   * `instance_from_db(row)`: on a cached id, assigns the row's columns to that
   * same object in row order; otherwise builds a new instance carrying the row
   * id and caches it under that id.
   */
  method InstanceFromDb(cache: Cache, row: Row) returns (r: Result<Entity, Error>)
    requires cache.Valid() && WellFormed(cache.schema)
    requires |row.cells| == |cache.schema.columns|
    modifies cache, cache.all.Values
    ensures cache.Valid()
    ensures forall k :: k in old(cache.all) ==> k in cache.all && cache.all[k] == old(cache.all)[k]
    ensures cache.all.Keys <= old(cache.all).Keys + {row.id}
    ensures forall o :: o in cache.all.Values ==> o in old(cache.all.Values) || fresh(o)
    ensures r.Success? ==> row.id in cache.all && cache.all[row.id] == r.value
    ensures r.Success? ==> RowResult(cache.schema, old(CachedFields(cache.all, row.id)), row) == Success(r.value.fields)
    ensures r.Failure? ==> RowResult(cache.schema, old(CachedFields(cache.all, row.id)), row) == Failure(r.error)
    ensures row.id in old(cache.all) ==>
      var e := old(cache.all[row.id]);
      var refreshed := AssignAll(cache.schema, old(e.fields), cache.schema.columns, row.cells);
      && cache.all == old(cache.all)
      && e.fields == refreshed.0 && e.id == old(e.id)
      && (refreshed.1.None? ==> r == Success(e))
      && (refreshed.1.Some? ==> r == Failure(refreshed.1.value))
      && (forall o :: o in old(cache.all.Values) && o != e ==> o.fields == old(o.fields) && o.id == old(o.id))
    ensures row.id !in old(cache.all) ==>
      var b := Build(cache.schema, RowValues(cache.schema, row));
      && (forall o :: o in old(cache.all.Values) ==> o.fields == old(o.fields) && o.id == old(o.id))
      && (b.Failure? ==> r == Failure(b.error) && cache.all == old(cache.all))
      && (b.Success? ==>
            r.Success? && fresh(r.value) && r.value.id == Int(row.id) && r.value.fields == b.value &&
            cache.all == old(cache.all)[row.id := r.value])
  {
    var s := cache.schema;
    if row.id in cache.all {
      var e := cache.all[row.id];
      var i := 0;
      while i < |s.columns|
        invariant 0 <= i <= |s.columns|
        invariant cache.all == old(cache.all) && e.id == old(e.id)
        invariant AssignAll(s, old(e.fields), s.columns, row.cells) == AssignAll(s, e.fields, s.columns[i..], row.cells[i..])
        invariant forall o :: o in old(cache.all.Values) && o != e ==> o.fields == old(o.fields) && o.id == old(o.id)
      {
        var err := e.Set(s.columns[i], row.cells[i]);
        if err.Some? {
          return Failure(err.value);
        }
        assert s.columns[i..][1..] == s.columns[i + 1..] && row.cells[i..][1..] == row.cells[i + 1..];
        i := i + 1;
      }
      return Success(e);
    }
    r := New(s, Int(row.id), RowValues(s, row));
    if r.Success? {
      cache.all := cache.all[row.id := r.value];
    }
  }

  /** `save()`: the new row's id becomes the instance id and the instance is cached under it. */
  method Save(inst: Entity, cache: Cache, newId: int)
    requires cache.Valid() && inst.schema == cache.schema
    modifies inst`id, cache`all
    ensures inst.id == Int(newId)
    ensures cache.all == old(cache.all)[newId := inst]
    ensures cache.Valid()
  {
    inst.id := Int(newId);
    cache.all := cache.all[newId := inst];
  }

  // ---------------------------------------------------------------------
  // Constructor defaults

  /** `Unit(acquisition_date, address, monthly_mortgage, monthly_rent, late_fee=150)` */
  function UnitArgs(acquisitionDate: Value, address: Value, monthlyMortgage: Value, monthlyRent: Value,
                    lateFee: Option<Value>): (args: seq<Value>)
    ensures |args| == |UnitSchema().ctorOrder|
  {
    [acquisitionDate, address, monthlyMortgage, monthlyRent, lateFee.GetOr(Int(150))]
  }

  /** A Unit built without a late fee carries 150.0, the default run through the amount validator. */
  lemma UnitLateFeeDefault(acquisitionDate: Value, address: Value, monthlyMortgage: Value, monthlyRent: Value)
    requires Build(UnitSchema(), UnitArgs(acquisitionDate, address, monthlyMortgage, monthlyRent, None)).Success?
    ensures "late_fee" in Build(UnitSchema(), UnitArgs(acquisitionDate, address, monthlyMortgage, monthlyRent, None)).value
    ensures Build(UnitSchema(), UnitArgs(acquisitionDate, address, monthlyMortgage, monthlyRent, None)).value["late_fee"] == Float(150.0)
  {
    var s := UnitSchema();
    var args := UnitArgs(acquisitionDate, address, monthlyMortgage, monthlyRent, None);
    assert s.ctorOrder[4] == "late_fee" && s.ctorOrder[5..] == [];
    AssignAllStores(s, map[], s.ctorOrder, args, 4);
  }

  /** `Payment(amount, pmt_date, method, tenant_id, category="rent")`, in assignment order. */
  function PaymentArgs(amount: Value, pmtDate: Value, pmtMethod: Value, tenantId: Value, category: Option<Value>): (args: seq<Value>)
    ensures forall p :: |args| == |PaymentSchema(p).ctorOrder|
  {
    [amount, pmtDate, pmtMethod, category.GetOr(Str("rent")), tenantId]
  }

  /** A Payment built without a category is a rent payment. */
  lemma PaymentCategoryDefault(tenantExists: int -> bool, amount: Value, pmtDate: Value, pmtMethod: Value, tenantId: Value)
    requires Build(PaymentSchema(tenantExists), PaymentArgs(amount, pmtDate, pmtMethod, tenantId, None)).Success?
    ensures "category" in Build(PaymentSchema(tenantExists), PaymentArgs(amount, pmtDate, pmtMethod, tenantId, None)).value
    ensures Build(PaymentSchema(tenantExists), PaymentArgs(amount, pmtDate, pmtMethod, tenantId, None)).value["category"] == Str("rent")
  {
    var s := PaymentSchema(tenantExists);
    var args := PaymentArgs(amount, pmtDate, pmtMethod, tenantId, None);
    assert s.ctorOrder[3] == "category" && s.ctorOrder[4..] == ["tenant_id"];
    assert PaymentCategories[0] == "rent";
    AssignAllStores(s, map[], s.ctorOrder, args, 3);
  }

  /** `Tenant(name, email_address, phone_number, unit_id, move_in_date, move_out_date=None)`, in assignment order. */
  function TenantArgs(name: Value, emailAddress: Value, phoneNumber: Value, unitId: Value, moveInDate: Value,
                      moveOutDate: Option<Value>): (args: seq<Value>)
    ensures forall p :: |args| == |TenantSchema(p).ctorOrder|
  {
    [name, emailAddress, phoneNumber, moveInDate, moveOutDate.GetOr(NoneV), unitId]
  }

  /** A Tenant built without a move-out date has none. */
  lemma TenantMoveOutDefault(unitExists: int -> bool, name: Value, emailAddress: Value, phoneNumber: Value, unitId: Value, moveInDate: Value)
    requires Build(TenantSchema(unitExists), TenantArgs(name, emailAddress, phoneNumber, unitId, moveInDate, None)).Success?
    ensures "move_out_date" in Build(TenantSchema(unitExists), TenantArgs(name, emailAddress, phoneNumber, unitId, moveInDate, None)).value
    ensures Build(TenantSchema(unitExists), TenantArgs(name, emailAddress, phoneNumber, unitId, moveInDate, None)).value["move_out_date"] == NoneV
  {
    var s := TenantSchema(unitExists);
    var args := TenantArgs(name, emailAddress, phoneNumber, unitId, moveInDate, None);
    assert s.ctorOrder[4] == "move_out_date" && s.ctorOrder[5..] == ["unit_id"];
    AssignAllStores(s, map[], s.ctorOrder, args, 4);
  }

  /** The address as `Unit.__repr__` shows it: every newline becomes ", ". */
  function AddressOnOneLine(address: string): (r: string)
    ensures '\n' !in r
    ensures '\n' !in address ==> r == address
    ensures |r| >= |address|
  {
    if address == [] then []
    else (if address[0] == '\n' then ", " else [address[0]]) + AddressOnOneLine(address[1..])
  }

  /** Lines of a multi-line address come out in order, separated by ", ". */
  lemma {:induction false} AddressLinesJoined(first: string, rest: string)
    requires '\n' !in first
    ensures AddressOnOneLine(first + "\n" + rest) == first + ", " + AddressOnOneLine(rest)
    decreases |first|
  {
    if first == [] {
      assert ("" + "\n" + rest)[1..] == rest;
    } else {
      assert (first + "\n" + rest)[1..] == first[1..] + "\n" + rest;
      AddressLinesJoined(first[1..], rest);
    }
  }
}
