/** Layered configuration: the recursive merge of one configuration table
    into another, and the left fold of that merge over a list of files.
    Reading and parsing TOML is not part of this model: a file is given as
    its parsed table, or as `None` when its path does not exist. */
module Loader {
  import opened Wrappers

  /** A parsed TOML value: a scalar (kept as its literal text), an array, or
      a table (`dict`). */
  datatype Value = Scalar(literal: string) | Array(items: seq<Value>) | Table(fields: map<string, Value>)

  type Config = map<string, Value>

  /** `deep_merge(base, override)` as a value: every key of either table;
      where both sides hold tables the merge recurses, otherwise the
      override's value replaces the base's. */
  function Merged(base: Config, over: Config): Config
    decreases Table(over)
  {
    map k | k in base.Keys + over.Keys :: MergedAt(base, over, k)
  }

  function MergedAt(base: Config, over: Config, k: string): Value
    requires k in base.Keys + over.Keys
    decreases Table(over), 0
  {
    if k in over then
      if k in base && base[k].Table? && over[k].Table? then Table(Merged(base[k].fields, over[k].fields))
      else over[k]
    else base[k]
  }

  /** `deep_merge`: copies `base`, then writes each key of `override` into
      the copy, recursing where both values are tables. Neither argument is
      changed (both are values). */
  method DeepMerge(base: Config, over: Config) returns (result: Config)
    ensures result == Merged(base, over)
    decreases Table(over)
  {
    result := base;
    var pending := over.Keys;
    while pending != {}
      invariant pending <= over.Keys
      invariant result.Keys == base.Keys + (over.Keys - pending)
      invariant forall k :: k in result && k in over && k !in pending ==> result[k] == MergedAt(base, over, k)
      invariant forall k :: k in result && (k !in over || k in pending) ==> result[k] == base[k]
      decreases pending
    {
      var key :| key in pending;
      var value := over[key];
      if key in result && result[key].Table? && value.Table? {
        var sub := DeepMerge(result[key].fields, value.fields);
        result := result[key := Table(sub)];
      } else {
        result := result[key := value];
      }
      pending := pending - {key};
    }
  }

  /** The merge keeps every key of both tables and no other. */
  lemma MergedKeys(base: Config, over: Config)
    ensures Merged(base, over).Keys == base.Keys + over.Keys
  {
  }

  /** The override wins wherever the two sides are not both tables; keys
      the override lacks keep the base's value; where both are tables the
      result is their merge. */
  lemma MergedValues(base: Config, over: Config, k: string)
    ensures k in over && !(k in base && base[k].Table? && over[k].Table?) ==>
      Merged(base, over)[k] == over[k]
    ensures k in base && k !in over ==> Merged(base, over)[k] == base[k]
    ensures k in base && k in over && base[k].Table? && over[k].Table? ==>
      Merged(base, over)[k] == Table(Merged(base[k].fields, over[k].fields))
  {
  }

  /** Merging into or from an empty table changes nothing. */
  lemma MergedEmpty(c: Config)
    ensures Merged(map[], c) == c
    ensures Merged(c, map[]) == c
  {
  }

  /** Merging a configuration with itself gives it back, at every depth. */
  lemma {:induction false} MergedSelf(c: Config)
    ensures Merged(c, c) == c
    decreases Table(c)
  {
    forall k | k in c ensures MergedAt(c, c, k) == c[k] {
      if c[k].Table? {
        MergedSelf(c[k].fields);
      }
    }
  }

  /** Applying the same override a second time changes nothing more. */
  lemma {:induction false} MergedTwice(base: Config, over: Config)
    ensures Merged(Merged(base, over), over) == Merged(base, over)
    decreases Table(over)
  {
    var once := Merged(base, over);
    forall k | k in once.Keys + over.Keys ensures MergedAt(once, over, k) == once[k] {
      assert once[k] == MergedAt(base, over, k);
      if k in over {
        if k in base && base[k].Table? && over[k].Table? {
          MergedTwice(base[k].fields, over[k].fields);
          assert once[k] == Table(Merged(base[k].fields, over[k].fields));
        } else {
          assert once[k] == over[k];
          if over[k].Table? {
            MergedSelf(over[k].fields);
          }
        }
      }
    }
  }

  /** `load_config` as a value: the left fold of `Merged` over the files
      that exist, starting from the empty table. */
  function Loaded(files: seq<Option<Config>>): Config
  {
    if files == [] then map[]
    else
      var before := Loaded(files[..|files| - 1]);
      match files[|files| - 1]
      case None => before
      case Some(c) => Merged(before, c)
  }

  /** `load_config`: merges each existing file into the running result in
      order, so later files override earlier ones. */
  method LoadConfig(files: seq<Option<Config>>) returns (config: Config)
    ensures config == Loaded(files)
  {
    config := map[];
    for i := 0 to |files|
      invariant config == Loaded(files[..i])
    {
      assert files[..i + 1][..i] == files[..i];
      match files[i]
      case None =>
      case Some(c) =>
        config := DeepMerge(config, c);
    }
    assert files[..|files|] == files;
  }

  /** With no existing file the configuration is empty. */
  lemma {:induction false} LoadedNothing(files: seq<Option<Config>>)
    requires forall i :: 0 <= i < |files| ==> files[i].None?
    ensures Loaded(files) == map[]
  {
    if files != [] {
      LoadedNothing(files[..|files| - 1]);
    }
  }

  /** A single existing file is loaded as it is. */
  lemma LoadedSingle(c: Config)
    ensures Loaded([Some(c)]) == c
  {
    assert [Some(c)][..0] == [];
    MergedEmpty(c);
  }

  /** A scalar or array set by the last existing file is the final value of
      that key, whatever came before. */
  lemma LastFileWins(files: seq<Option<Config>>, c: Config, k: string)
    requires files != [] && files[|files| - 1] == Some(c)
    requires k in c && !c[k].Table?
    ensures k in Loaded(files) && Loaded(files)[k] == c[k]
  {
    var before := Loaded(files[..|files| - 1]);
    assert Loaded(files) == Merged(before, c);
    MergedValues(before, c, k);
  }

  /** Files that do not exist leave the result as it was. */
  lemma MissingFileSkipped(files: seq<Option<Config>>)
    ensures Loaded(files + [None]) == Loaded(files)
  {
    assert (files + [None])[..|files|] == files;
  }

  /** The nested example from the loader's unit tests: the inner tables are
      merged key by key and the untouched top-level key survives. */
  lemma NestedMergeExample()
    ensures Merged(map["a" := Table(map["x" := Scalar("1"), "y" := Scalar("2")]), "b" := Scalar("3")],
                   map["a" := Table(map["y" := Scalar("99"), "z" := Scalar("100")])])
         == map["a" := Table(map["x" := Scalar("1"), "y" := Scalar("99"), "z" := Scalar("100")]), "b" := Scalar("3")]
  {
    var inner := Merged(map["x" := Scalar("1"), "y" := Scalar("2")], map["y" := Scalar("99"), "z" := Scalar("100")]);
    assert inner == map["x" := Scalar("1"), "y" := Scalar("99"), "z" := Scalar("100")];
  }
}
