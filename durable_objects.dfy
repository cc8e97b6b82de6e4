/**
 * The Durable Objects table registry: for each benchmark, the tables it
 * uses, each mapped to the binding name the worker accesses it by. The
 * registry is a dict of dicts with a default of `{}` for an unknown
 * benchmark; insertion order decides which entry `remove_table` deletes.
 */
module DurableObjects {
  import opened Wrappers
  import opened Dicts

  type Tables = Dict<string, string>
  type Registry = Dict<string, Tables>

  /** Distinct benchmarks, and distinct table names within each benchmark. */
  predicate WellFormed(reg: Registry)
  {
    Distinct(reg) && forall i :: 0 <= i < |reg| ==> Distinct(reg[i].1)
  }

  /** The cached NoSQL entry of a benchmark: its "tables" dict, when present. */
  datatype CachedStorage = CachedStorage(tables: Option<Tables>)

  /** `_tables[benchmark][name] = name`, creating the benchmark's dict when missing. */
  function WithTable(reg: Registry, benchmark: string, name: string): Registry
  {
    var inner := if HasKey(reg, benchmark) then Get(reg, benchmark).value else [];
    Set(reg, benchmark, Set(inner, name, name))
  }

  /** `_get_table_name` as a function of the registry. */
  function TableNameIn(reg: Registry, benchmark: string, table: string): (r: Option<string>)
    ensures !HasKey(reg, benchmark) ==> r == None
    ensures HasKey(reg, benchmark) ==> r == Get(Get(reg, benchmark).value, table)
  {
    match Get(reg, benchmark)
    case None => None
    case Some(inner) => Get(inner, table)
  }

  /** After registering, the table is found under its own name. */
  lemma WithTableFinds(reg: Registry, benchmark: string, name: string)
    requires WellFormed(reg)
    ensures WellFormed(WithTable(reg, benchmark, name))
    ensures TableNameIn(WithTable(reg, benchmark, name), benchmark, name) == Some(name)
  {
    var inner := if HasKey(reg, benchmark) then Get(reg, benchmark).value else [];
    if HasKey(reg, benchmark) {
      var i := IndexOf(reg, benchmark);
      assert inner == reg[i].1;
    }
    GetSet(inner, name, name, name);
    var reg' := WithTable(reg, benchmark, name);
    GetSet(reg, benchmark, Set(inner, name, name), benchmark);
    WithTableWellFormed(reg, benchmark, name);
  }

  lemma WithTableWellFormed(reg: Registry, benchmark: string, name: string)
    requires WellFormed(reg)
    ensures WellFormed(WithTable(reg, benchmark, name))
  {
    var inner := if HasKey(reg, benchmark) then Get(reg, benchmark).value else [];
    if HasKey(reg, benchmark) {
      assert inner == reg[IndexOf(reg, benchmark)].1;
    }
    GetSet(inner, name, name, name);
    var reg' := WithTable(reg, benchmark, name);
    GetSet(reg, benchmark, Set(inner, name, name), benchmark);
    forall i | 0 <= i < |reg'| ensures Distinct(reg'[i].1) {
      if HasKey(reg, benchmark) {
        if i != IndexOf(reg, benchmark) {
          assert reg'[i] == reg[i];
        }
      } else if i < |reg| {
        assert reg'[i] == reg[i];
      }
    }
  }

  /** Registering touches no other benchmark and no other table of the same benchmark. */
  lemma WithTableFrame(reg: Registry, benchmark: string, name: string, b: string, t: string)
    requires WellFormed(reg)
    requires b != benchmark || t != name
    ensures b != benchmark ==> Get(WithTable(reg, benchmark, name), b) == Get(reg, b)
    ensures TableNameIn(WithTable(reg, benchmark, name), b, t) == TableNameIn(reg, b, t)
  {
    var inner := if HasKey(reg, benchmark) then Get(reg, benchmark).value else [];
    if HasKey(reg, benchmark) {
      assert inner == reg[IndexOf(reg, benchmark)].1;
    }
    GetSet(reg, benchmark, Set(inner, name, name), b);
    if b == benchmark {
      GetSet(inner, name, name, t);
    }
  }

  /** Registering the same table twice leaves the registry as registering it once. */
  lemma WithTableIdempotent(reg: Registry, benchmark: string, name: string)
    requires WellFormed(reg)
    ensures WithTable(WithTable(reg, benchmark, name), benchmark, name) == WithTable(reg, benchmark, name)
  {
    var inner := if HasKey(reg, benchmark) then Get(reg, benchmark).value else [];
    var inner' := Set(inner, name, name);
    var reg' := Set(reg, benchmark, inner');
    GetSet(reg, benchmark, inner', benchmark);
    assert HasKey(reg', benchmark) && Get(reg', benchmark).value == inner';
    SetSet(inner, name, name, name);
    SetSet(reg, benchmark, inner', inner');
  }

  /** The position of the first benchmark having a table bound to `name`, or |reg|. */
  function FirstHolding(reg: Registry, name: string): (i: nat)
    ensures i <= |reg|
    ensures forall k :: 0 <= k < i ==> name !in ValuesOf(reg[k].1)
    ensures i < |reg| ==> name in ValuesOf(reg[i].1)
  {
    if |reg| == 0 then 0
    else if name in ValuesOf(reg[0].1) then 0
    else 1 + FirstHolding(reg[1..], name)
  }

  function ValuesOf(t: Tables): (vs: seq<string>)
    ensures |vs| == |t| && forall i :: 0 <= i < |t| ==> vs[i] == t[i].1
  {
    seq(|t|, i requires 0 <= i < |t| => t[i].1)
  }

  /** The position of the first table bound to `name`. */
  function FirstBound(t: Tables, name: string): (j: nat)
    requires name in ValuesOf(t)
    ensures j < |t| && t[j].1 == name
    ensures forall k :: 0 <= k < j ==> t[k].1 != name
  {
    if t[0].1 == name then 0
    else
      assert name in ValuesOf(t[1..]) by {
        var m :| 0 <= m < |t| && ValuesOf(t)[m] == name;
        assert ValuesOf(t[1..])[m - 1] == name;
      }
      1 + FirstBound(t[1..], name)
  }

  /**
   * What `remove_table` leaves: the first table bound to `name` in the
   * first benchmark holding one is deleted; nothing else changes.
   */
  function RemoveFirstBound(reg: Registry, name: string): (r: Registry)
    ensures |r| == |reg| && forall i :: 0 <= i < |reg| ==> r[i].0 == reg[i].0
  {
    var i := FirstHolding(reg, name);
    if i == |reg| then reg
    else
      var t := reg[i].1;
      var j := FirstBound(t, name);
      reg[i := (reg[i].0, t[..j] + t[j + 1..])]
  }

  function Count(reg: Registry): nat
  {
    if |reg| == 0 then 0 else |reg[0].1| + Count(reg[1..])
  }

  lemma {:induction false} CountUpdate(reg: Registry, i: nat, t: Tables)
    requires i < |reg|
    ensures Count(reg[i := (reg[i].0, t)]) == Count(reg) - |reg[i].1| + |t|
  {
    if i > 0 {
      assert reg[i := (reg[i].0, t)][1..] == reg[1..][i - 1 := (reg[i].0, t)];
      CountUpdate(reg[1..], i - 1, t);
    }
  }

  /** Removing deletes exactly one table when some table is bound to `name`, and none otherwise. */
  lemma RemoveDeletesAtMostOne(reg: Registry, name: string)
    ensures FirstHolding(reg, name) == |reg| ==> RemoveFirstBound(reg, name) == reg
    ensures FirstHolding(reg, name) < |reg| ==> Count(RemoveFirstBound(reg, name)) == Count(reg) - 1
    ensures Keys(RemoveFirstBound(reg, name)) == Keys(reg)
  {
    var i := FirstHolding(reg, name);
    if i < |reg| {
      var t := reg[i].1;
      var j := FirstBound(t, name);
      CountUpdate(reg, i, t[..j] + t[j + 1..]);
    }
  }

  /** Replacing one benchmark's tables by well-formed ones keeps the registry well formed. */
  lemma ReplaceWellFormed(reg: Registry, i: nat, t: Tables)
    requires WellFormed(reg) && i < |reg| && Distinct(t)
    ensures WellFormed(reg[i := (reg[i].0, t)])
  {
    var reg' := reg[i := (reg[i].0, t)];
    assert forall k :: 0 <= k < |reg| ==> reg'[k].0 == reg[k].0;
  }

  /** Removal keeps the registry well formed. */
  lemma RemoveWellFormed(reg: Registry, name: string)
    requires WellFormed(reg)
    ensures WellFormed(RemoveFirstBound(reg, name))
  {
    var i := FirstHolding(reg, name);
    if i < |reg| {
      var t := reg[i].1;
      var j := FirstBound(t, name);
      RemoveDistinct(t, j);
      ReplaceWellFormed(reg, i, t[..j] + t[j + 1..]);
    }
  }

  const NoSqlEnvironment: map<string, string> := map["NOSQL_STORAGE_DATABASE" := "durable_objects"]

  class DurableObjectsRegistry {
    var tables: Registry

    predicate Valid()
      reads this
    {
      WellFormed(tables)
    }

    constructor ()
      ensures Valid() && tables == []
    {
      tables := [];
    }

    /** `get_tables`: the benchmark's tables; an unknown benchmark gets an empty dict inserted. */
    method GetTables(benchmark: string) returns (t: Tables)
      requires Valid()
      modifies this
      ensures Valid()
      ensures HasKey(old(tables), benchmark) ==> tables == old(tables) && Some(t) == Get(tables, benchmark)
      ensures !HasKey(old(tables), benchmark) ==> tables == old(tables) + [(benchmark, [])] && t == []
      ensures Get(tables, benchmark) == Some(t)
    {
      var found := Get(tables, benchmark);
      if found.Some? {
        t := found.value;
      } else {
        tables := tables + [(benchmark, [])];
        t := [];
        IndexOfDistinct(tables, benchmark, |tables| - 1);
      }
    }

    /** `_get_table_name`. */
    function TableName(benchmark: string, table: string): (r: Option<string>)
      reads this
      ensures r == TableNameIn(tables, benchmark, table)
    {
      TableNameIn(tables, benchmark, table)
    }

    /**
     * `retrieve_cache`: true at once for a known benchmark; otherwise the
     * cached tables are loaded when the cache has an entry (a missing
     * "tables" field raises), else false.
     */
    method RetrieveCache(benchmark: string, cached: Option<CachedStorage>) returns (r: Result<bool, string>)
      requires Valid()
      requires cached.Some? && cached.value.tables.Some? ==> Distinct(cached.value.tables.value)
      modifies this
      ensures Valid()
      ensures HasKey(old(tables), benchmark) ==> r == Success(true) && tables == old(tables)
      ensures !HasKey(old(tables), benchmark) && cached.None? ==> r == Success(false) && tables == old(tables)
      ensures !HasKey(old(tables), benchmark) && cached.Some? && cached.value.tables.None? ==>
        r.Failure? && tables == old(tables)
      ensures !HasKey(old(tables), benchmark) && cached.Some? && cached.value.tables.Some? ==>
        r == Success(true) && tables == old(tables) + [(benchmark, cached.value.tables.value)]
    {
      if Get(tables, benchmark).Some? {
        return Success(true);
      }
      if cached.None? {
        return Success(false);
      }
      if cached.value.tables.None? {
        return Failure("KeyError: tables");
      }
      tables := tables + [(benchmark, cached.value.tables.value)];
      return Success(true);
    }

    /** `update_cache`: the entry written to the cache, with the same default insertion as `get_tables`. */
    method UpdateCache(benchmark: string) returns (entry: CachedStorage)
      requires Valid()
      modifies this
      ensures Valid()
      ensures HasKey(old(tables), benchmark) ==> tables == old(tables)
      ensures !HasKey(old(tables), benchmark) ==> tables == old(tables) + [(benchmark, [])]
      ensures entry.tables == Get(tables, benchmark)
    {
      var t := GetTables(benchmark);
      entry := CachedStorage(Some(t));
    }

    /** `create_table`: registers the table under its own name and returns the name. */
    method CreateTable(benchmark: string, name: string) returns (r: string)
      requires Valid()
      modifies this
      ensures Valid()
      ensures r == name
      ensures tables == WithTable(old(tables), benchmark, name)
      ensures TableName(benchmark, name) == Some(name)
    {
      WithTableFinds(tables, benchmark, name);
      var inner := Get(tables, benchmark);
      var t := if inner.Some? then inner.value else [];
      tables := Set(tables, benchmark, Set(t, name, name));
      r := name;
    }

    /** `write_to_table`: an unknown (or empty) table name is an error; seeding data is skipped. */
    function WriteToTable(benchmark: string, table: string): (r: Result<(), string>)
      reads this
      ensures r.Success? <==> TableName(benchmark, table).Some? && TableName(benchmark, table).value != ""
      ensures r.Failure? ==> r.error == "Table " + table + " not found for benchmark " + benchmark
    {
      var name := TableName(benchmark, table);
      if name.None? || name.value == "" then
        Failure("Table " + table + " not found for benchmark " + benchmark)
      else Success(())
    }

    /** `clear_table`: the data lives in the worker, so only the name comes back. */
    function ClearTable(name: string): (r: string)
      ensures r == name
    {
      name
    }

    /** `remove_table`: the two-step search, then one deletion. */
    method RemoveTable(name: string) returns (r: string)
      requires Valid()
      modifies this
      ensures Valid()
      ensures r == name
      ensures tables == RemoveFirstBound(old(tables), name)
    {
      RemoveWellFormed(tables, name);
      var found := false;
      var bi := 0;
      var tj := 0;
      var i := 0;
      while i < |tables|
        invariant 0 <= i <= |tables|
        invariant forall k :: 0 <= k < i ==> name !in ValuesOf(tables[k].1)
      {
        var t := tables[i].1;
        var j := 0;
        var inTables := false;
        while j < |t|
          invariant 0 <= j <= |t|
          invariant forall k :: 0 <= k < j ==> t[k].1 != name
        {
          if t[j].1 == name {
            inTables := true;
            break;
          }
          j := j + 1;
        }
        if inTables {
          assert ValuesOf(t)[j] == name;
          assert FirstHolding(tables, name) == i;
          assert FirstBound(t, name) == j;
          found := true;
          bi := i;
          tj := j;
          break;
        }
        assert name !in ValuesOf(t);
        i := i + 1;
      }
      if found {
        var t := tables[bi].1;
        tables := tables[bi := (tables[bi].0, t[..tj] + t[tj + 1..])];
      } else {
        assert FirstHolding(tables, name) == |tables|;
      }
      r := name;
    }

    /** `envs`: the marker telling the wrapper that Durable Objects back NoSQL. */
    function Envs(): (e: map<string, string>)
      ensures e.Keys == {"NOSQL_STORAGE_DATABASE"} && e["NOSQL_STORAGE_DATABASE"] == "durable_objects"
    {
      NoSqlEnvironment
    }
  }

  /**
   * After `get_tables` inserts the empty default for an unknown benchmark,
   * `retrieve_cache` reports it present without consulting the cache.
   */
  method GetTablesThenRetrieve(reg: DurableObjectsRegistry, benchmark: string, cached: Option<CachedStorage>)
    returns (r: Result<bool, string>)
    requires reg.Valid()
    requires cached.Some? && cached.value.tables.Some? ==> Distinct(cached.value.tables.value)
    modifies reg
    ensures r == Success(true)
    ensures HasKey(reg.tables, benchmark)
  {
    var t := reg.GetTables(benchmark);
    assert HasKey(reg.tables, benchmark) by {
      if !HasKey(old(reg.tables), benchmark) {
        assert reg.tables[|reg.tables| - 1].0 == benchmark;
      }
    }
    r := reg.RetrieveCache(benchmark, cached);
  }
}
