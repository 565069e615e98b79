/**
 * `Vagrant::Mirror::Config`: the list of folders to mirror, the builders
 * that add to it, validation, and merge.
 */
module MirrorConfig {
  import opened Wrappers

  /** A key of a folder hash: one of the six symbols `validate` accepts, or any other key (by its printed name). */
  datatype Key = NameKey | GuestPathKey | DeleteKey | BeepKey | ExcludeKey | SymlinksKey | OtherKey(printed: string)

  /**
   * The options hash passed to `folder`: each known option, `None` when
   * the hash lacks it, and the names of any other keys in insertion order.
   */
  datatype Options = Options(
    delete: Option<bool>,
    beep: Option<bool>,
    exclude: Option<seq<string>>,
    symlinks: Option<seq<string>>,
    name: Option<Option<string>>,
    guestPath: Option<Option<string>>,
    extra: seq<string>)

  /** `folder(share_name, guest_path)` with no options. */
  const NoOptions := Options(None, None, None, None, None, None, [])

  /** A stored folder hash; `name` and `guestPath` may be nil. */
  datatype Folder = Folder(
    name: Option<string>,
    guestPath: Option<string>,
    delete: bool,
    beep: bool,
    exclude: seq<string>,
    symlinks: seq<string>,
    extra: seq<string>)

  function Or<T>(o: Option<T>, default: T): T
  {
    if o.Some? then o.value else default
  }

  /** How a key prints in a message. */
  function KeyName(k: Key): string
  {
    match k
    case NameKey => "name"
    case GuestPathKey => "guest_path"
    case DeleteKey => "delete"
    case BeepKey => "beep"
    case ExcludeKey => "exclude"
    case SymlinksKey => "symlinks"
    case OtherKey(printed) => printed
  }

  /** `valid_opts.include?(option)`. */
  predicate ValidOption(k: Key) { !k.OtherKey? }

  function OtherKeys(names: seq<string>): seq<Key>
  {
    if names == [] then [] else OtherKeys(names[..|names| - 1]) + [OtherKey(names[|names| - 1])]
  }

  /** The folder hash's keys: the defaults, then the other option keys in insertion order, then the names. */
  function Keys(f: Folder): seq<Key>
  {
    [DeleteKey, BeepKey, ExcludeKey, SymlinksKey] + OtherKeys(f.extra) + [NameKey, GuestPathKey]
  }

  /**
   * The folder `folder(share_name, guest_path, options)` stores: the
   * defaults merged with the options, the symlinks appended to the
   * excludes, and the two names set from the arguments.
   */
  function NewFolder(shareName: Option<string>, guestPath: Option<string>, options: Options): Folder
  {
    var symlinks := Or(options.symlinks, []);
    Folder(shareName, guestPath, Or(options.delete, false), Or(options.beep, false),
           Or(options.exclude, []) + symlinks, symlinks, options.extra)
  }

  /** An error `validate` records. */
  datatype ConfigError = EmptyHostPath | EmptyGuestPath | UnknownOption(option: Key)

  function Text(e: ConfigError): string
  {
    match e
    case EmptyHostPath => "vagrant-mirror cannot mirror an empty or nil host path"
    case EmptyGuestPath => "vagrant-mirror cannot mirror an empty or nil guest path"
    case UnknownOption(option) => "vagrant-mirror does not understand the option " + KeyName(option)
  }

  predicate NilOrEmpty(s: Option<string>) { s.None? || s.value == "" }

  /** The errors for the keys in `keys`, in order. */
  function KeyErrors(keys: seq<Key>): seq<ConfigError>
  {
    if keys == [] then []
    else KeyErrors(keys[..|keys| - 1]) + if ValidOption(keys[|keys| - 1]) then [] else [UnknownOption(keys[|keys| - 1])]
  }

  /** One error per other key, naming it, in order. */
  function UnknownErrors(names: seq<string>): seq<ConfigError>
  {
    if names == [] then [] else UnknownErrors(names[..|names| - 1]) + [UnknownOption(OtherKey(names[|names| - 1]))]
  }

  /**
   * The errors for one folder: its name, its guest path, then one per
   * key outside the accepted six.
   */
  function FolderErrors(f: Folder): seq<ConfigError>
  {
    (if NilOrEmpty(f.name) then [EmptyHostPath] else [])
      + (if NilOrEmpty(f.guestPath) then [EmptyGuestPath] else [])
      + UnknownErrors(f.extra)
  }

  /** The errors `validate` records for `folders`, folder by folder. */
  function ValidationErrors(folders: seq<Folder>): seq<ConfigError>
  {
    if folders == [] then [] else ValidationErrors(folders[..|folders| - 1]) + FolderErrors(folders[|folders| - 1])
  }

  lemma {:induction false} KeyErrorsAppend(a: seq<Key>, b: seq<Key>)
    ensures KeyErrors(a + b) == KeyErrors(a) + KeyErrors(b)
    decreases |b|
  {
    if b == [] {
      assert a + b == a;
    } else {
      assert (a + b)[..|a + b| - 1] == a + b[..|b| - 1];
      KeyErrorsAppend(a, b[..|b| - 1]);
    }
  }

  lemma {:induction false} OtherKeysErrors(names: seq<string>)
    ensures KeyErrors(OtherKeys(names)) == UnknownErrors(names)
    decreases |names|
  {
    if names != [] {
      var init := names[..|names| - 1];
      OtherKeysErrors(init);
      var keys := OtherKeys(names);
      assert keys == OtherKeys(init) + [OtherKey(names[|names| - 1])];
      assert keys[..|keys| - 1] == OtherKeys(init);
    }
  }

  /** Scanning all the keys of a folder hash finds exactly its other keys, in order. */
  lemma KeysErrors(f: Folder)
    ensures KeyErrors(Keys(f)) == UnknownErrors(f.extra)
  {
    var front: seq<Key> := [DeleteKey, BeepKey, ExcludeKey, SymlinksKey];
    var back: seq<Key> := [NameKey, GuestPathKey];
    KeyErrorsAppend(front + OtherKeys(f.extra), back);
    KeyErrorsAppend(front, OtherKeys(f.extra));
    KnownKeysNoErrors(front);
    KnownKeysNoErrors(back);
    OtherKeysErrors(f.extra);
  }

  lemma {:induction false} KnownKeysNoErrors(keys: seq<Key>)
    requires forall k :: k in keys ==> ValidOption(k)
    ensures KeyErrors(keys) == []
    decreases |keys|
  {
    if keys != [] {
      assert forall k :: k in keys[..|keys| - 1] ==> k in keys;
      KnownKeysNoErrors(keys[..|keys| - 1]);
    }
  }

  /** Each key outside the accepted six gives exactly one error, naming it, in order. */
  lemma {:induction false} UnknownErrorsNameKeys(names: seq<string>)
    ensures |UnknownErrors(names)| == |names|
    ensures forall i :: 0 <= i < |names| ==> UnknownErrors(names)[i] == UnknownOption(OtherKey(names[i]))
    decreases |names|
  {
    if names != [] {
      UnknownErrorsNameKeys(names[..|names| - 1]);
    }
  }

  /** Validating merged folder lists records the first list's errors, then the second's. */
  lemma {:induction false} ValidationAppend(a: seq<Folder>, b: seq<Folder>)
    ensures ValidationErrors(a + b) == ValidationErrors(a) + ValidationErrors(b)
    decreases |b|
  {
    if b == [] {
      assert a + b == a;
    } else {
      var init, last := b[..|b| - 1], b[|b| - 1];
      calc {
        ValidationErrors(a + b);
      == { assert (a + b)[..|a + b| - 1] == a + init; assert (a + b)[|a + b| - 1] == last; }
        ValidationErrors(a + init) + FolderErrors(last);
      == { ValidationAppend(a, init); }
        ValidationErrors(a) + ValidationErrors(init) + FolderErrors(last);
      }
    }
  }

  /**
   * A folder built from non-empty names and recognised options is valid;
   * unspecified options take their defaults; and the symlinks follow the
   * given excludes in the exclude list.
   */
  lemma NewFolderFacts(shareName: Option<string>, guestPath: Option<string>, options: Options)
    ensures var f := NewFolder(shareName, guestPath, options);
      && f.name == shareName && f.guestPath == guestPath
      && (options.delete.None? ==> !f.delete)
      && (options.beep.None? ==> !f.beep)
      && f.exclude == Or(options.exclude, []) + Or(options.symlinks, [])
      && (!NilOrEmpty(shareName) && !NilOrEmpty(guestPath) && options.extra == [] ==> FolderErrors(f) == [])
  {
  }

  /**
   * A folder added with a nil or empty share name and a nil or empty guest
   * path, and with only accepted option keys, records exactly the two path
   * errors, whatever its options.
   */
  lemma NilPathsRejected(shareName: Option<string>, guestPath: Option<string>, options: Options)
    requires NilOrEmpty(shareName) && NilOrEmpty(guestPath) && options.extra == []
    ensures ValidationErrors([NewFolder(shareName, guestPath, options)]) == [EmptyHostPath, EmptyGuestPath]
  {
    assert [NewFolder(shareName, guestPath, options)][..0] == [];
  }

  /** `folder[:exclude] << link_path` for each symlink, in order. */
  method AppendSymlinks(exclude: seq<string>, symlinks: seq<string>) returns (r: seq<string>)
    ensures r == exclude + symlinks
  {
    r := exclude;
    for i := 0 to |symlinks|
      invariant r == exclude + symlinks[..i]
    {
      r := r + [symlinks[i]];
    }
  }

  /** The inner loop of `validate`: one error per key of the folder hash that is not accepted. */
  method ScanKeys(keys: seq<Key>) returns (errors: seq<ConfigError>)
    ensures errors == KeyErrors(keys)
  {
    errors := [];
    for j := 0 to |keys|
      invariant errors == KeyErrors(keys[..j])
    {
      assert keys[..j + 1][..j] == keys[..j];
      if !ValidOption(keys[j]) {
        errors := errors + [UnknownOption(keys[j])];
      }
    }
    assert keys[..|keys|] == keys;
  }

  /** The errors of the first `i + 1` folders extend those of the first `i` by the next folder's. */
  lemma ValidationStep(folders: seq<Folder>, i: nat)
    requires i < |folders|
    ensures ValidationErrors(folders[..i + 1]) == ValidationErrors(folders[..i]) + FolderErrors(folders[i])
  {
    assert folders[..i + 1][..i] == folders[..i];
  }

  /**
   * The body of `validate`'s outer loop for one folder: the name error, the
   * guest path error, then one error per key of its hash outside the
   * accepted six.
   */
  method ValidateFolder(folder: Folder) returns (errors: seq<ConfigError>)
    ensures errors == FolderErrors(folder)
  {
    errors := [];
    if folder.name.None? || folder.name.value == "" {
      errors := errors + [EmptyHostPath];
    }
    if folder.guestPath.None? || folder.guestPath.value == "" {
      errors := errors + [EmptyGuestPath];
    }
    var unknown := ScanKeys(Keys(folder));
    KeysErrors(folder);
    errors := errors + unknown;
  }

  /** `Vagrant::Mirror::Config`. */
  class Config {
    var folders: seq<Folder>

    constructor ()
      ensures folders == []
    {
      folders := [];
    }

    /** `folder(share_name, guest_path, options)`: append one folder, keep the others. */
    method AddFolder(shareName: Option<string>, guestPath: Option<string>, options: Options)
      modifies this
      ensures folders == old(folders) + [NewFolder(shareName, guestPath, options)]
    {
      var symlinks := Or(options.symlinks, []);
      var exclude := AppendSymlinks(Or(options.exclude, []), symlinks);
      var folder := Folder(shareName, guestPath, Or(options.delete, false), Or(options.beep, false), exclude, symlinks, options.extra);
      folders := folders + [folder];
    }

    /** `vagrant_root(guest_path, options)`: the folder of the share named "v-root". */
    method VagrantRoot(guestPath: Option<string>, options: Options)
      modifies this
      ensures folders == old(folders) + [NewFolder(Some("v-root"), guestPath, options)]
    {
      AddFolder(Some("v-root"), guestPath, options);
    }

    /** `validate(env, errors)`: the errors recorded, in order. */
    method Validate() returns (errors: seq<ConfigError>)
      ensures errors == ValidationErrors(folders)
    {
      errors := [];
      for i := 0 to |folders|
        invariant errors == ValidationErrors(folders[..i])
      {
        var found := ValidateFolder(folders[i]);
        ValidationStep(folders, i);
        errors := errors + found;
      }
      assert folders[..|folders|] == folders;
    }

    /** `merge(other)`: a new configuration whose folders are these, then the other's. */
    method Merge(other: Config) returns (result: Config)
      ensures fresh(result) && result.folders == folders + other.folders
    {
      result := new Config();
      result.folders := folders + other.folders;
    }
  }
}
