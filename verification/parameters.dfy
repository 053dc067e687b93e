/** The dictionaries derived from the parameter table and the base-folder
    update (projects/mouse_burrows/algorithm/parameters.py). */
module Parameters {
  import opened Wrappers
  import opened Units
  import opened ParameterList

  /** No two entries of the table share a key. */
  ghost predicate DistinctKeys(list: seq<Parameter>) {
    forall i, j :: 0 <= i < j < |list| ==> list[i].key != list[j].key
  }

  /** `list[i]` is the last entry of `list` with its key. */
  ghost predicate IsLastWithKey(list: seq<Parameter>, i: int) {
    0 <= i < |list| &&
    forall j :: i < j < |list| ==> list[j].key != list[i].key
  }

  /** `list[i]` is the last non-deprecated entry of `list` with its key. */
  ghost predicate IsLastLiveWithKey(list: seq<Parameter>, i: int) {
    0 <= i < |list| && list[i].unit != Some(Deprecated) &&
    forall j :: i < j < |list| && list[j].unit != Some(Deprecated) ==> list[j].key != list[i].key
  }

  // ---------------------------------------------------------------------------
  // PARAMETERS: key -> record
  // ---------------------------------------------------------------------------

  /** The dictionary comprehension `{p.key: p for p in list}`: entries are
      inserted in list order, so a later entry overwrites an earlier one with
      the same key. */
  function RegistryOf(list: seq<Parameter>): (r: map<string, Parameter>)
    ensures forall k :: k in r <==> exists i :: 0 <= i < |list| && list[i].key == k
    ensures forall k :: k in r ==> r[k] in list && r[k].key == k
  {
    if |list| == 0 then map[]
    else
      var last := list[|list| - 1];
      RegistryOf(list[..|list| - 1])[last.key := last]
  }

  /** A key is mapped to the last entry that carries it. */
  lemma {:induction false} RegistryLast(list: seq<Parameter>, i: int)
    requires IsLastWithKey(list, i)
    ensures RegistryOf(list)[list[i].key] == list[i]
    decreases |list|
  {
    if i < |list| - 1 {
      var front := list[..|list| - 1];
      assert IsLastWithKey(front, i);
      RegistryLast(front, i);
    }
  }

  /** With distinct keys every entry is found under its own key and the
      dictionary has exactly one entry per list element. */
  lemma {:induction false} RegistryOfDistinct(list: seq<Parameter>)
    requires DistinctKeys(list)
    ensures forall i :: 0 <= i < |list| ==> RegistryOf(list)[list[i].key] == list[i]
    ensures |RegistryOf(list)| == |list|
    decreases |list|
  {
    forall i | 0 <= i < |list|
      ensures RegistryOf(list)[list[i].key] == list[i]
    {
      RegistryLast(list, i);
    }
    if |list| > 0 {
      var front := list[..|list| - 1];
      RegistryOfDistinct(front);
      assert list[|list| - 1].key !in RegistryOf(front);
    }
  }

  const Registry: map<string, Parameter> := RegistryOf(AllParameters)

  // ---------------------------------------------------------------------------
  // PARAMETERS_DEFAULT: key -> default value, deprecated entries dropped
  // ---------------------------------------------------------------------------

  /** The filtered comprehension `{p.key: p.default_value for p in list if
      p.unit != DEPRECATED}`. A parameter without a unit is kept. */
  function DefaultsOf(list: seq<Parameter>): (r: map<string, Value>)
    ensures forall k :: k in r <==>
      exists i :: 0 <= i < |list| && list[i].key == k && list[i].unit != Some(Deprecated)
  {
    if |list| == 0 then map[]
    else
      var last := list[|list| - 1];
      var front := DefaultsOf(list[..|list| - 1]);
      if last.unit == Some(Deprecated) then front
      else front[last.key := last.defaultValue]
  }

  /** A key is mapped to the default of the last non-deprecated entry that
      carries it. */
  lemma {:induction false} DefaultsLast(list: seq<Parameter>, i: int)
    requires IsLastLiveWithKey(list, i)
    ensures DefaultsOf(list)[list[i].key] == list[i].defaultValue
    decreases |list|
  {
    if i < |list| - 1 {
      var front := list[..|list| - 1];
      assert IsLastLiveWithKey(front, i);
      DefaultsLast(front, i);
    }
  }

  /** With distinct keys the defaults hold exactly the non-deprecated entries,
      each with its own default value, and agree with the registry. */
  lemma DefaultsOfDistinct(list: seq<Parameter>)
    requires DistinctKeys(list)
    ensures forall i :: 0 <= i < |list| ==>
      (list[i].key in DefaultsOf(list) <==> list[i].unit != Some(Deprecated))
    ensures forall i :: 0 <= i < |list| && list[i].unit != Some(Deprecated) ==>
      DefaultsOf(list)[list[i].key] == list[i].defaultValue
    ensures forall k :: k in DefaultsOf(list) ==>
      k in RegistryOf(list) && DefaultsOf(list)[k] == RegistryOf(list)[k].defaultValue
  {
    RegistryOfDistinct(list);
    forall i | 0 <= i < |list| && list[i].unit != Some(Deprecated)
      ensures DefaultsOf(list)[list[i].key] == list[i].defaultValue
    {
      DefaultsLast(list, i);
    }
  }

  const Defaults: map<string, Value> := DefaultsOf(AllParameters)

  // ---------------------------------------------------------------------------
  // set_base_folder
  // ---------------------------------------------------------------------------

  /** The keys of the sub-folder entries of `list`. */
  ghost function SubfolderKeys(list: seq<Parameter>): set<string> {
    set i | 0 <= i < |list| && list[i].unit == Some(Subfolder) :: list[i].key
  }

  /** `list[i]` is the first sub-folder entry of `list` whose key is `k`. */
  ghost predicate FirstSubfolderWithKey(list: seq<Parameter>, i: int, k: string) {
    0 <= i < |list| && list[i].key == k && list[i].unit == Some(Subfolder) &&
    forall j :: 0 <= j < i ==> list[j].key != k || list[j].unit != Some(Subfolder)
  }

  /** The loop over the table that inserts the default of every sub-folder
      parameter missing from `params`. */
  function AddDefaultFolders(list: seq<Parameter>, params: map<string, Value>): (r: map<string, Value>)
    ensures params.Keys <= r.Keys
    ensures forall k :: k in r && k !in params ==> exists i :: 0 <= i < |list| && list[i].key == k
    decreases |list|
  {
    if |list| == 0 then params
    else
      var p := list[0];
      var next := if p.unit == Some(Subfolder) && p.key !in params
        then params[p.key := p.defaultValue] else params;
      AddDefaultFolders(list[1..], next)
  }

  lemma SubfolderKeysCons(list: seq<Parameter>)
    requires |list| > 0
    ensures SubfolderKeys(list) ==
      (if list[0].unit == Some(Subfolder) then {list[0].key} else {}) + SubfolderKeys(list[1..])
  {
    var tail := list[1..];
    forall k | k in SubfolderKeys(list)
      ensures k in (if list[0].unit == Some(Subfolder) then {list[0].key} else {}) + SubfolderKeys(tail)
    {
      var i :| 0 <= i < |list| && list[i].unit == Some(Subfolder) && list[i].key == k;
      if i > 0 {
        assert tail[i - 1] == list[i];
      }
    }
    forall k | k in SubfolderKeys(tail)
      ensures k in SubfolderKeys(list)
    {
      var i :| 0 <= i < |tail| && tail[i].unit == Some(Subfolder) && tail[i].key == k;
      assert list[i + 1] == tail[i];
    }
  }

  /** Injecting defaults adds exactly the missing sub-folder keys and never
      overwrites a key that is already present. */
  lemma {:induction false} AddDefaultFoldersKeep(list: seq<Parameter>, params: map<string, Value>)
    ensures AddDefaultFolders(list, params).Keys == params.Keys + SubfolderKeys(list)
    ensures forall k :: k in params ==> AddDefaultFolders(list, params)[k] == params[k]
    decreases |list|
  {
    if |list| > 0 {
      var p := list[0];
      var next := if p.unit == Some(Subfolder) && p.key !in params
        then params[p.key := p.defaultValue] else params;
      AddDefaultFoldersKeep(list[1..], next);
      SubfolderKeysCons(list);
    }
  }

  /** Each injected key holds the default of the first sub-folder entry that
      carries it. */
  lemma {:induction false} AddDefaultFoldersValues(list: seq<Parameter>, params: map<string, Value>)
    ensures var r := AddDefaultFolders(list, params);
      forall k :: k in r && k !in params ==>
        exists i :: FirstSubfolderWithKey(list, i, k) && r[k] == list[i].defaultValue
    decreases |list|
  {
    if |list| > 0 {
      var p := list[0];
      var next := if p.unit == Some(Subfolder) && p.key !in params
        then params[p.key := p.defaultValue] else params;
      var tail := list[1..];
      AddDefaultFoldersValues(tail, next);
      AddDefaultFoldersKeep(tail, next);
      var r := AddDefaultFolders(list, params);
      forall k | k in r && k !in params
        ensures exists i :: FirstSubfolderWithKey(list, i, k) && r[k] == list[i].defaultValue
      {
        if k in next {
          assert FirstSubfolderWithKey(list, 0, k);
        } else {
          var i :| FirstSubfolderWithKey(tail, i, k) && r[k] == tail[i].defaultValue;
          forall j | 0 <= j < i + 1
            ensures list[j].key != k || list[j].unit != Some(Subfolder)
          {
            if j > 0 {
              assert list[j] == tail[j - 1];
            }
          }
          assert FirstSubfolderWithKey(list, i + 1, k);
        }
      }
    }
  }

  /** `set_base_folder` on a plain dictionary and an explicit table: with
      `includeDefault`, inject the missing sub-folder defaults, then set
      `base_folder`. */
  function SetBaseFolderIn(list: seq<Parameter>, params: map<string, Value>, folder: Value,
                           includeDefault: bool): (r: map<string, Value>)
    ensures "base_folder" in r && r["base_folder"] == folder
    ensures r.Keys == params.Keys + {"base_folder"} + (if includeDefault then SubfolderKeys(list) else {})
    ensures forall k :: k in params && k != "base_folder" ==> k in r && r[k] == params[k]
    ensures forall k :: k in r && k !in params && k != "base_folder" ==>
      exists i :: FirstSubfolderWithKey(list, i, k) && r[k] == list[i].defaultValue
  {
    AddDefaultFoldersKeep(list, params);
    AddDefaultFoldersValues(list, params);
    var withDefaults := if includeDefault then AddDefaultFolders(list, params) else params;
    withDefaults["base_folder" := folder]
  }

  /** `set_base_folder` against the parameter table of the program; its
      properties are those of `SetBaseFolderIn` for that table. */
  function SetBaseFolder(params: map<string, Value>, folder: Value, includeDefault: bool): map<string, Value> {
    SetBaseFolderIn(AllParameters, params, folder, includeDefault)
  }

  /** Setting the base folder twice is the same as setting it once with the
      later folder. */
  lemma SetBaseFolderTwice(list: seq<Parameter>, params: map<string, Value>, a: Value, b: Value,
                           includeDefault: bool)
    ensures SetBaseFolderIn(list, SetBaseFolderIn(list, params, a, includeDefault), b, includeDefault)
         == SetBaseFolderIn(list, params, b, includeDefault)
  {
    var once := SetBaseFolderIn(list, params, b, includeDefault);
    var m := SetBaseFolderIn(list, params, a, includeDefault);
    var twice := SetBaseFolderIn(list, m, b, includeDefault);
    assert twice.Keys == once.Keys;
    forall k | k in twice
      ensures twice[k] == once[k]
    {
      if k != "base_folder" && k !in params {
        var i :| FirstSubfolderWithKey(list, i, k) && m[k] == list[i].defaultValue;
        var j :| FirstSubfolderWithKey(list, j, k) && once[k] == list[j].defaultValue;
        assert i == j;
      }
    }
  }
}
