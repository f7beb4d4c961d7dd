/** The override store of prompts/config.py: named configurations, each a map from
    task name to template string, merged from the YAML and then the JSON files of a
    directory. */
module PromptConfigs {
  import opened Wrappers
  import opened Dicts
  import opened Formatting

  /** The tasks of one configuration. */
  type TaskMap = Dict<string, string>

  /** Configuration name to its tasks, as `custom_prompts` holds them. */
  type Store = Dict<string, TaskMap>

  predicate WellFormed(s: Store)
  {
    s.Valid() && forall name :: name in s.values ==> s.values[name].Valid()
  }

  /** What the files of the configuration directory parse to, in the order the
      directory listing gives them: a mapping, or `None` for a file that cannot be
      opened or parsed or whose content `dict.update` refuses. */
  datatype ConfigDir = ConfigDir(yamlFiles: seq<Option<Store>>, jsonFiles: seq<Option<Store>>) {
    predicate Valid()
    {
      AllWellFormed(yamlFiles) && AllWellFormed(jsonFiles)
    }
  }

  predicate AllWellFormed(files: seq<Option<Store>>)
  {
    forall i :: 0 <= i < |files| && files[i].Some? ==> WellFormed(files[i].value)
  }

  /** One step of the load loop: `prompts.update(data)`, or nothing when the file failed. */
  function Step(acc: Store, file: Option<Store>): (r: Store)
    requires WellFormed(acc)
    requires file.Some? ==> WellFormed(file.value)
    ensures WellFormed(r)
  {
    match file
    case None => acc
    case Some(data) =>
      var r := acc.Update(data);
      assert forall name :: name in r.values ==> r.Get(name) == Some(r.values[name]);
      r
  }

  /** The store after the files `files` were loaded, in order, into `acc`. */
  function LoadAll(acc: Store, files: seq<Option<Store>>): (r: Store)
    requires WellFormed(acc) && AllWellFormed(files)
    ensures WellFormed(r)
    decreases |files|
  {
    if files == [] then acc
    else Step(LoadAll(acc, files[..|files| - 1]), files[|files| - 1])
  }

  /** `_load_custom_prompts()` over the directory: all YAML files, then all JSON files. */
  function Loaded(dir: ConfigDir): (r: Store)
    requires dir.Valid()
    ensures WellFormed(r)
  {
    LoadAll(LoadAll(Empty(), dir.yamlFiles), dir.jsonFiles)
  }

  lemma PrefixWellFormed(files: seq<Option<Store>>, i: nat)
    requires AllWellFormed(files) && i <= |files|
    ensures AllWellFormed(files[..i])
  {
    assert forall j :: 0 <= j < i ==> files[..i][j] == files[j];
  }

  /** Loading one more file is one more step. */
  lemma LoadAllSnoc(acc: Store, files: seq<Option<Store>>, i: nat)
    requires WellFormed(acc) && AllWellFormed(files) && i < |files|
    ensures AllWellFormed(files[..i]) && AllWellFormed(files[..i + 1])
    ensures LoadAll(acc, files[..i + 1]) == Step(LoadAll(acc, files[..i]), files[i])
  {
    PrefixWellFormed(files, i);
    PrefixWellFormed(files, i + 1);
    assert files[..i + 1][..i] == files[..i];
  }

  /** One loop of `_load_custom_prompts`: merge each file of `files` that parses. */
  method LoadFiles(acc: Store, files: seq<Option<Store>>) returns (prompts: Store)
    requires WellFormed(acc) && AllWellFormed(files)
    ensures prompts == LoadAll(acc, files)
  {
    prompts := acc;
    for i := 0 to |files|
      invariant AllWellFormed(files[..i])
      invariant prompts == LoadAll(acc, files[..i])
    {
      LoadAllSnoc(acc, files, i);
      match files[i]
      case None =>
      case Some(data) => prompts := prompts.Update(data);
    }
    assert files[..|files|] == files;
  }

  /** `_load_custom_prompts`: start from `{}`, merge the YAML files, then the JSON files. */
  method LoadCustomPrompts(dir: ConfigDir) returns (prompts: Store)
    requires dir.Valid()
    ensures prompts == Loaded(dir)
  {
    prompts := LoadFiles(Empty(), dir.yamlFiles);
    prompts := LoadFiles(prompts, dir.jsonFiles);
  }

  /** The task map of the last file, among `files`, that defines `name`. */
  function LastDefinition(files: seq<Option<Store>>, name: string): Option<TaskMap>
    decreases |files|
  {
    if files == [] then None
    else
      var last := files[|files| - 1];
      if last.Some? && last.value.Contains(name) then last.value.Get(name)
      else LastDefinition(files[..|files| - 1], name)
  }

  /** A name maps to the whole task map of the last file that defines it: a later file
      replaces an earlier entry as a whole, there is no merge task by task. */
  lemma {:induction false} LoadAllGet(acc: Store, files: seq<Option<Store>>, name: string)
    requires WellFormed(acc) && AllWellFormed(files)
    ensures LoadAll(acc, files).Get(name)
         == if LastDefinition(files, name).Some? then LastDefinition(files, name) else acc.Get(name)
    decreases |files|
  {
    if files != [] {
      LoadAllGet(acc, files[..|files| - 1], name);
    }
  }

  /** Loading `a` and then `b` is loading `a + b`. */
  lemma {:induction false} LoadAllAppend(acc: Store, a: seq<Option<Store>>, b: seq<Option<Store>>)
    requires WellFormed(acc) && AllWellFormed(a) && AllWellFormed(b)
    ensures AllWellFormed(a + b)
    ensures LoadAll(acc, a + b) == LoadAll(LoadAll(acc, a), b)
    decreases |b|
  {
    assert AllWellFormed(a + b) by {
      forall i | 0 <= i < |a + b| && (a + b)[i].Some? ensures WellFormed((a + b)[i].value) {
        if i < |a| { assert (a + b)[i] == a[i]; } else { assert (a + b)[i] == b[i - |a|]; }
      }
    }
    if b == [] {
      assert a + b == a;
    } else {
      var b' := b[..|b| - 1];
      assert (a + b)[..|a + b| - 1] == a + b';
      assert AllWellFormed(b') by {
        forall i | 0 <= i < |b'| && b'[i].Some? ensures WellFormed(b'[i].value) {
          assert b'[i] == b[i];
        }
      }
      LoadAllAppend(acc, a, b');
    }
  }

  /** The YAML files come first: the directory loads as the single sequence of its
      YAML results followed by its JSON results. */
  lemma LoadedInOrder(dir: ConfigDir)
    requires dir.Valid()
    ensures AllWellFormed(dir.yamlFiles + dir.jsonFiles)
    ensures Loaded(dir) == LoadAll(Empty(), dir.yamlFiles + dir.jsonFiles)
  {
    LoadAllAppend(Empty(), dir.yamlFiles, dir.jsonFiles);
  }

  /** A file that fails leaves the store as it was, and the files after it are still
      loaded: the result is that of the same files without it. */
  lemma FailedFileSkipped(acc: Store, a: seq<Option<Store>>, b: seq<Option<Store>>)
    requires WellFormed(acc) && AllWellFormed(a) && AllWellFormed(b)
    ensures AllWellFormed(a + [None] + b) && AllWellFormed(a + b)
    ensures LoadAll(acc, a + [None] + b) == LoadAll(acc, a + b)
  {
    LoadAllAppend(acc, a, [None]);
    LoadAllAppend(acc, a + [None], b);
    LoadAllAppend(acc, a, b);
    assert LoadAll(acc, a + [None]) == Step(LoadAll(acc, a), None) by {
      assert (a + [None])[..|a + [None]| - 1] == a;
    }
  }

  /** A configuration is defined after loading exactly when some file defines it. */
  lemma LoadedNames(dir: ConfigDir, name: string)
    requires dir.Valid()
    ensures AllWellFormed(dir.yamlFiles + dir.jsonFiles)
    ensures Loaded(dir).Contains(name) <==> LastDefinition(dir.yamlFiles + dir.jsonFiles, name).Some?
    ensures Loaded(dir).Get(name) == LastDefinition(dir.yamlFiles + dir.jsonFiles, name)
  {
    LoadedInOrder(dir);
    LoadAllGet(Empty(), dir.yamlFiles + dir.jsonFiles, name);
  }

  /** `LastDefinition` finds a definition exactly when some file defines the name. */
  lemma {:induction false} LastDefinitionSome(files: seq<Option<Store>>, name: string)
    ensures LastDefinition(files, name).Some?
        <==> exists i :: 0 <= i < |files| && files[i].Some? && files[i].value.Contains(name)
    decreases |files|
  {
    if files != [] {
      var prefix := files[..|files| - 1];
      LastDefinitionSome(prefix, name);
      if exists i :: 0 <= i < |prefix| && prefix[i].Some? && prefix[i].value.Contains(name) {
        var i :| 0 <= i < |prefix| && prefix[i].Some? && prefix[i].value.Contains(name);
        assert files[i] == prefix[i];
      }
      if exists i :: 0 <= i < |files| && files[i].Some? && files[i].value.Contains(name) {
        var i :| 0 <= i < |files| && files[i].Some? && files[i].value.Contains(name);
        if i < |prefix| { assert prefix[i] == files[i]; }
      }
    }
  }

  /** Why `get_custom_prompt` raises. */
  datatype ConfigError =
    | ConfigNotFound(name: string)              // ValueError: Configuration '…' not found
    | TaskNotFound(task: string, name: string)  // ValueError: Task '…' not found in configuration '…'
    | BadFormat(error: FormatError)             // raised by `template.format(**kwargs)`

  /** `PromptConfig`: the loaded store, replaced as a whole by `reload`. */
  class PromptConfig {
    var customPrompts: Store

    predicate Valid()
      reads this
    {
      WellFormed(customPrompts)
    }

    /** `PromptConfig(config_dir)`: loads the directory. */
    constructor (dir: ConfigDir)
      requires dir.Valid()
      ensures Valid() && customPrompts == Loaded(dir)
    {
      var prompts := LoadCustomPrompts(dir);
      customPrompts := prompts;
    }

    /** `get_custom_prompt(config_name, task, **kwargs)`. */
    function GetCustomPrompt(name: string, task: string, kwargs: Params): (r: Result<string, ConfigError>)
      reads this
      ensures r == Failure(ConfigNotFound(name)) <==> !customPrompts.Contains(name)
      ensures r == Failure(TaskNotFound(task, name))
          <==> customPrompts.Contains(name) && !customPrompts.values[name].Contains(task)
      ensures r.Success? ==> customPrompts.Contains(name) && customPrompts.values[name].Contains(task)
      ensures customPrompts.Contains(name) && customPrompts.values[name].Contains(task) ==>
                r == match Format(customPrompts.values[name].values[task], kwargs)
                     case Success(s) => Success(s)
                     case Failure(e) => Failure(BadFormat(e))
    {
      if !customPrompts.Contains(name) then Failure(ConfigNotFound(name))
      else
        var config := customPrompts.values[name];
        if !config.Contains(task) then Failure(TaskNotFound(task, name))
        else
          match Format(config.values[task], kwargs)
          case Success(s) => Success(s)
          case Failure(e) => Failure(BadFormat(e))
    }

    /** `list_configurations()`: the loaded names, each once, in first-load order. */
    function ListConfigurations(): (names: seq<string>)
      reads this
      requires Valid()
      ensures forall name :: name in names <==> customPrompts.Contains(name)
      ensures forall i, j :: 0 <= i < j < |names| ==> names[i] != names[j]
    {
      customPrompts.keys
    }

    /** `list_tasks(config_name)`: that configuration's task names, or `[]` for an
        unknown name. */
    function ListTasks(name: string): (tasks: seq<string>)
      reads this
      requires Valid()
      ensures !customPrompts.Contains(name) ==> tasks == []
      ensures customPrompts.Contains(name) ==>
                forall task :: task in tasks <==> customPrompts.values[name].Contains(task)
      ensures forall i, j :: 0 <= i < j < |tasks| ==> tasks[i] != tasks[j]
    {
      if !customPrompts.Contains(name) then [] else customPrompts.values[name].keys
    }

    /** `reload()`: the store becomes a fresh load of the directory as it is now; nothing
        of the previous contents survives. */
    method Reload(dir: ConfigDir)
      requires dir.Valid()
      modifies this
      ensures Valid() && customPrompts == Loaded(dir)
    {
      customPrompts := LoadCustomPrompts(dir);
    }
  }

  /** A configured template written in `{name}` form is filled in field by field. */
  lemma CustomPromptSubstitutes(c: PromptConfig, name: string, task: string, ps: seq<Piece>, kwargs: Params)
    requires c.customPrompts.Contains(name) && c.customPrompts.values[name].Contains(task)
    requires c.customPrompts.values[name].values[task] == Render(ps) && SimplePieces(ps)
    ensures c.GetCustomPrompt(name, task, kwargs).Success? <==> FieldNames(ps) <= kwargs.Keys
    ensures match Substitute(ps, kwargs)
            case Success(s) => c.GetCustomPrompt(name, task, kwargs) == Success(s)
            case Failure(e) => c.GetCustomPrompt(name, task, kwargs) == Failure(BadFormat(e))
  {
    FormatRender(ps, kwargs);
    SubstituteSucceeds(ps, kwargs);
  }
}
