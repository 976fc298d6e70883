/** The boot-menu generator of the client (`GrubUpdater`): it lists the
    `.iso` images of the image directory newest first, gives each a hotkey,
    renders a GRUB configuration that loop-mounts the chosen image, and
    installs it as `grub/grub.cfg` under the boot directory by writing a
    temporary file and renaming it over the old one. */
module UpdateGrub {
  import opened Wrappers
  import opened Paths
  import opened StringOrder

  const Digits: string := "0123456789"
  const AsciiLowercase: string := "abcdefghijklmnopqrstuvwxyz"
  const AsciiUppercase: string := "ABCDEFGHIJKLMNOPQRSTUVWXYZ"

  /** `_HOTKEYS`: `string.digits + string.ascii_letters`. */
  const Hotkeys: string := Digits + AsciiLowercase + AsciiUppercase

  /** The hotkey alphabet by code point: `0`-`9`, then `a`-`z`, then `A`-`Z`. */
  function HotkeyCode(i: nat): int
    requires i < 62
  {
    if i < 10 then '0' as int + i
    else if i < 36 then 'a' as int + (i - 10)
    else 'A' as int + (i - 36)
  }

  lemma HotkeysByCode()
    ensures |Hotkeys| == 62
    ensures forall i :: 0 <= i < 62 ==> Hotkeys[i] as int == HotkeyCode(i)
  {
    DigitsByCode();
    LowercaseByCode();
    UppercaseByCode();
    forall i | 0 <= i < 62 ensures Hotkeys[i] as int == HotkeyCode(i) {
      if i < 10 {
        assert Hotkeys[i] == Digits[i];
      } else if i < 36 {
        assert Hotkeys[i] == AsciiLowercase[i - 10];
      } else {
        assert Hotkeys[i] == AsciiUppercase[i - 36];
      }
    }
  }

  lemma DigitsByCode()
    ensures |Digits| == 10 && forall i :: 0 <= i < 10 ==> Digits[i] as int == '0' as int + i
  {
  }

  lemma LowercaseByCode()
    ensures |AsciiLowercase| == 26 && forall i :: 0 <= i < 26 ==> AsciiLowercase[i] as int == 'a' as int + i
  {
  }

  lemma UppercaseByCode()
    ensures |AsciiUppercase| == 26 && forall i :: 0 <= i < 26 ==> AsciiUppercase[i] as int == 'A' as int + i
  {
  }

  /** No two menu entries can share a hotkey. */
  lemma HotkeysDistinct()
    ensures forall i, j :: 0 <= i < j < |Hotkeys| ==> Hotkeys[i] != Hotkeys[j]
  {
    HotkeysByCode();
  }

  /** The exceptions `Update` and the constructor can raise. */
  datatype GrubError =
    | AssertionError               // image directory not under the boot directory
    | CurrentImageUnavailable      // `lib.GetCurrentImage` raised
    | VolumeIdUnavailable(filename: string)  // `lib.GetVolumeID` raised for this image
    | HotkeyIndexError(index: nat) // `_HOTKEYS[i]` out of range
    | OsError(op: FileOp)          // a file operation raised

  /** The file operations `Update` performs, each of which can raise. */
  datatype FileOp = CreateTempOp | WriteOp | ListDirOp | FlushOp | RenameOp | UnlinkOp

  datatype GrubUpdater = GrubUpdater(imageDir: string, bootDir: string, imagePath: string)

  /** Definition of `GrubUpdater(image_dir, boot_dir)`: the image directory
      must have the boot directory as a string prefix, and `imagePath` is `/`
      followed by the image directory relative to the boot directory. The
      contract spells out both cases; `ImagePathUnderBoot` states what the
      image path means. */
  function NewGrubUpdater(imageDir: string, bootDir: string): (r: Result<GrubUpdater, GrubError>)
    requires NormalPath(imageDir) && NormalPath(bootDir)
    ensures r.Err? <==> !StartsWith(imageDir, bootDir)
    ensures r.Err? ==> r.error == AssertionError
    ensures r.Ok? ==> r.value.imageDir == imageDir && r.value.bootDir == bootDir
    ensures r.Ok? ==> r.value.imagePath == "/" + RelPath(imageDir, bootDir)
  {
    if !StartsWith(imageDir, bootDir) then Err(AssertionError)
    else Ok(GrubUpdater(imageDir, bootDir, "/" + RelPath(imageDir, bootDir)))
  }

  /** An image directory `<boot>/<rest>` is reached from the boot partition
      root as `/<rest>`. */
  lemma ImagePathUnderBoot(bootDir: string, rest: string)
    requires NormalPath(bootDir) && bootDir != "/" && NormalPath(bootDir + "/" + rest)
    ensures NewGrubUpdater(bootDir + "/" + rest, bootDir).Ok?
    ensures NewGrubUpdater(bootDir + "/" + rest, bootDir).value.imagePath == "/" + rest
  {
    var imageDir := bootDir + "/" + rest;
    assert imageDir[..|bootDir|] == bootDir;
    assert imageDir[|bootDir|] == '/';
    assert imageDir[|bootDir| + 1..] == rest;
  }

  /** Menu title of an image: `<filename> (<volume id>)`. */
  function Title(filename: string, volumeId: string): string
  {
    filename + " (" + volumeId + ")"
  }

  datatype MenuEntry = MenuEntry(filename: string, volumeId: string, hotkey: char)

  /** The structure of a generated `grub.cfg`: the title of the default
      entry and the entries in the order they are written. */
  datatype Menu = Menu(defaultTitle: string, entries: seq<MenuEntry>)

  function HeaderText(defaultTitle: string): string
  {
    "\nset timeout=5\nset default=\"" + defaultTitle + "\"\n"
  }

  function EntryText(imagePath: string, e: MenuEntry): string
  {
    var iso := imagePath + "/" + e.filename;
    Concat([
      "\nmenuentry \"", Title(e.filename, e.volumeId), "\" --hotkey=", [e.hotkey], " {\n",
      "  search --no-floppy --file --set=root ", iso, "\n",
      "  iso_path=\"", iso, "\"\n",
      "  export iso_path\n",
      "  loopback loop \"", iso, "\"\n",
      "  set root=(loop)\n",
      "  configfile /boot/grub/loopback.cfg\n",
      "}\n"])
  }

  /** The parts one after the other. */
  function Concat(parts: seq<string>): string
  {
    if parts == [] then "" else parts[0] + Concat(parts[1..])
  }

  function EntriesText(imagePath: string, entries: seq<MenuEntry>): string
    decreases |entries|
  {
    if entries == [] then ""
    else EntriesText(imagePath, entries[..|entries| - 1]) + EntryText(imagePath, entries[|entries| - 1])
  }

  /** The text of `grub.cfg` for a menu. */
  function MenuText(imagePath: string, m: Menu): string
  {
    HeaderText(m.defaultTitle) + EntriesText(imagePath, m.entries)
  }

  /** The names of a directory listing that end in `.iso`, in listing order. */
  function IsoFiles(listing: seq<string>): seq<string>
    decreases |listing|
  {
    if listing == [] then []
    else
      var last := listing[|listing| - 1];
      IsoFiles(listing[..|listing| - 1]) + (if EndsWith(last, ".iso") then [last] else [])
  }

  /** Exactly the `.iso` names of the listing are kept, each as often as it
      is listed. */
  lemma {:induction false} IsoFilesExact(listing: seq<string>)
    ensures forall x :: multiset(IsoFiles(listing))[x] == if EndsWith(x, ".iso") then multiset(listing)[x] else 0
    decreases |listing|
  {
    if listing != [] {
      var init, last := listing[..|listing| - 1], listing[|listing| - 1];
      IsoFilesExact(init);
      assert listing == init + [last];
    }
  }

  /** The loop of `Update` that collects the `.iso` names of the listing. */
  method ListIsoFiles(listing: seq<string>) returns (files: seq<string>)
    ensures files == IsoFiles(listing)
  {
    files := [];
    for i := 0 to |listing|
      invariant files == IsoFiles(listing[..i])
    {
      assert listing[..i + 1][..i] == listing[..i];
      var filename := listing[i];
      if !EndsWith(filename, ".iso") {
        continue;
      }
      files := files + [filename];
    }
    assert listing[..|listing|] == listing;
  }

  /** `Update` can write the entry for the k-th sorted name: it has a hotkey
      and a volume id. */
  predicate Writable(names: seq<string>, volumeIds: map<string, string>, k: nat)
  {
    k < |names| && k < |Hotkeys| && names[k] in volumeIds
  }

  /** Index of the first sorted name, from `from` on, that `Update` fails on:
      past the hotkey alphabet, or with no volume id. */
  function FirstBadEntry(names: seq<string>, volumeIds: map<string, string>, from: nat): (r: Option<nat>)
    ensures r.None? ==> forall k :: from <= k < |names| ==> Writable(names, volumeIds, k)
    ensures r.Some? ==>
      from <= r.value < |names| && !Writable(names, volumeIds, r.value) &&
      forall k :: from <= k < r.value ==> Writable(names, volumeIds, k)
    decreases |names| - from
  {
    if from >= |names| then None
    else if !Writable(names, volumeIds, from) then Some(from)
    else FirstBadEntry(names, volumeIds, from + 1)
  }

  /** The first entry that cannot be written is the one the loop stops at. */
  lemma FirstBadIs(names: seq<string>, volumeIds: map<string, string>, i: nat)
    requires i < |names| && !Writable(names, volumeIds, i)
    requires forall k :: 0 <= k < i ==> Writable(names, volumeIds, k)
    ensures FirstBadEntry(names, volumeIds, 0) == Some(i)
  {
  }

  /** Every entry can be written exactly when there is no first bad one. */
  lemma FirstBadNone(names: seq<string>, volumeIds: map<string, string>)
    requires forall k :: 0 <= k < |names| ==> Writable(names, volumeIds, k)
    ensures FirstBadEntry(names, volumeIds, 0) == None
  {
  }

  /** The first `n` menu entries: the i-th sorted name, its volume id and
      `_HOTKEYS[i]`. */
  function EntriesUpTo(names: seq<string>, volumeIds: map<string, string>, n: nat): (es: seq<MenuEntry>)
    requires n <= |names|
    requires forall k :: 0 <= k < n ==> Writable(names, volumeIds, k)
    ensures |es| == n
    ensures forall k :: 0 <= k < n ==>
      Writable(names, volumeIds, k) && es[k] == MenuEntry(names[k], volumeIds[names[k]], Hotkeys[k])
    decreases n
  {
    if n == 0 then []
    else
      assert Writable(names, volumeIds, n - 1);
      EntriesUpTo(names, volumeIds, n - 1) + [MenuEntry(names[n - 1], volumeIds[names[n - 1]], Hotkeys[n - 1])]
  }

  /** What `Update` writes, or the exception it raises, given the current
      image (`None`: `lib.GetCurrentImage` raised), the volume ids
      `lib.GetVolumeID` returns per file name (a missing name: it raised) and
      the directory listing, checked in the order `Update` meets them. */
  function PlanMenu(current: Option<string>, volumeIds: map<string, string>, listing: seq<string>)
    : Result<Menu, GrubError>
  {
    match current
    case None => Err(CurrentImageUnavailable)
    case Some(cur) =>
      if cur !in volumeIds then Err(VolumeIdUnavailable(cur))
      else
        var names := SortDescending(IsoFiles(listing));
        match FirstBadEntry(names, volumeIds, 0)
        case Some(i) => Err(EntryError(names, i))
        case None => Ok(Menu(Title(cur, volumeIds[cur]), EntriesUpTo(names, volumeIds, |names|)))
  }

  /** The exception raised for the `i`-th sorted name when its entry cannot
      be written: `_HOTKEYS[i]` is evaluated before `lib.GetVolumeID`. */
  function EntryError(names: seq<string>, i: nat): GrubError
    requires i < |names|
  {
    if i >= |Hotkeys| then HotkeyIndexError(i) else VolumeIdUnavailable(names[i])
  }

  function Filenames(entries: seq<MenuEntry>): (fs: seq<string>)
    ensures |fs| == |entries| && forall i :: 0 <= i < |entries| ==> fs[i] == entries[i].filename
  {
    seq(|entries|, i requires 0 <= i < |entries| => entries[i].filename)
  }

  /** Sorting keeps the same names, as many of them. */
  lemma SortedNames(files: seq<string>)
    ensures |SortDescending(files)| == |files|
    ensures forall f :: f in SortDescending(files) <==> f in files
  {
    var names := SortDescending(files);
    assert |multiset(names)| == |multiset(files)|;
    forall f ensures f in names <==> f in files {
      assert f in names <==> f in multiset(names);
      assert f in files <==> f in multiset(files);
    }
  }

  /** The menu can be generated exactly when the current image and the
      volume id of it and of every `.iso` file are known and there are at
      most 62 `.iso` files. */
  lemma PlanSucceeds(current: Option<string>, volumeIds: map<string, string>, listing: seq<string>)
    ensures PlanMenu(current, volumeIds, listing).Ok? <==>
      current.Some? && current.value in volumeIds && |IsoFiles(listing)| <= |Hotkeys| &&
      forall f :: f in IsoFiles(listing) ==> f in volumeIds
  {
    var files := IsoFiles(listing);
    var names := SortDescending(files);
    SortedNames(files);
    if current.Some? && current.value in volumeIds {
      PlanByEntries(current.value, volumeIds, listing);
      var bad := FirstBadEntry(names, volumeIds, 0);
      if bad.None? {
        if |names| > 0 {
          assert Writable(names, volumeIds, |names| - 1);
        }
        forall f | f in files ensures f in volumeIds {
          var k :| 0 <= k < |names| && names[k] == f;
          assert Writable(names, volumeIds, k);
        }
      } else {
        var i := bad.value;
        assert names[i] in files;
      }
    }
  }

  /** The plan once the current image has a volume id: the outcome of
      writing the entries of the sorted `.iso` names. */
  lemma PlanByEntries(cur: string, volumeIds: map<string, string>, listing: seq<string>)
    requires cur in volumeIds
    ensures var names := SortDescending(IsoFiles(listing));
      PlanMenu(Some(cur), volumeIds, listing) ==
        match FirstBadEntry(names, volumeIds, 0)
        case Some(i) => Err(EntryError(names, i))
        case None => Ok(Menu(Title(cur, volumeIds[cur]), EntriesUpTo(names, volumeIds, |names|)))
  {
  }

  /** A successful plan lists the entries of all the sorted names. */
  lemma PlanValue(current: Option<string>, volumeIds: map<string, string>, listing: seq<string>)
    requires PlanMenu(current, volumeIds, listing).Ok?
    ensures current.Some? && current.value in volumeIds
    ensures var names := SortDescending(IsoFiles(listing));
      && (forall k :: 0 <= k < |names| ==> Writable(names, volumeIds, k))
      && PlanMenu(current, volumeIds, listing).value
         == Menu(Title(current.value, volumeIds[current.value]), EntriesUpTo(names, volumeIds, |names|))
  {
    var names := SortDescending(IsoFiles(listing));
    assert FirstBadEntry(names, volumeIds, 0).None?;
  }

  /** The entries written for `names`: one per name in order, each with the
      hotkey of its position and the volume id of its file. */
  lemma EntriesOf(names: seq<string>, volumeIds: map<string, string>)
    requires forall k :: 0 <= k < |names| ==> Writable(names, volumeIds, k)
    ensures var es := EntriesUpTo(names, volumeIds, |names|);
      && Filenames(es) == names
      && |es| <= |Hotkeys|
      && (forall i :: 0 <= i < |es| ==> es[i].hotkey == Hotkeys[i])
      && (forall i :: 0 <= i < |es| ==> es[i].filename in volumeIds && es[i].volumeId == volumeIds[es[i].filename])
  {
    if |names| > 0 {
      assert Writable(names, volumeIds, |names| - 1);
    }
  }

  /** With more than 62 `.iso` files `Update` fails: on the 63rd entry when
      every earlier one has a volume id. */
  lemma HotkeyOverflow(cur: string, volumeIds: map<string, string>, listing: seq<string>)
    requires cur in volumeIds && |IsoFiles(listing)| > |Hotkeys|
    requires forall f :: f in IsoFiles(listing) ==> f in volumeIds
    ensures PlanMenu(Some(cur), volumeIds, listing) == Err(HotkeyIndexError(|Hotkeys|))
  {
    var files := IsoFiles(listing);
    var names := SortDescending(files);
    SortedNames(files);
    forall k | 0 <= k < |Hotkeys| ensures Writable(names, volumeIds, k) {
      assert names[k] in files;
    }
    FirstBadIs(names, volumeIds, |Hotkeys|);
    PlanByEntries(cur, volumeIds, listing);
  }

  /** Every `.iso` file of the listing gets exactly one entry (as many as it
      is listed) and nothing else gets one; entries are newest first
      (descending file name); the i-th entry carries `_HOTKEYS[i]`, so the
      hotkeys are the first N symbols of the alphabet, all different. */
  lemma PlanEntries(current: Option<string>, volumeIds: map<string, string>, listing: seq<string>)
    requires PlanMenu(current, volumeIds, listing).Ok?
    ensures var es := PlanMenu(current, volumeIds, listing).value.entries;
      && multiset(Filenames(es)) == multiset(IsoFiles(listing))
      && (forall x :: x in Filenames(es) <==> x in listing && EndsWith(x, ".iso"))
      && Descending(Filenames(es))
      && |es| <= |Hotkeys|
      && (forall i :: 0 <= i < |es| ==> es[i].hotkey == Hotkeys[i])
      && (forall i, j :: 0 <= i < j < |es| ==> es[i].hotkey != es[j].hotkey)
      && (forall i :: 0 <= i < |es| ==> es[i].filename in volumeIds && es[i].volumeId == volumeIds[es[i].filename])
  {
    PlanValue(current, volumeIds, listing);
    var names := SortDescending(IsoFiles(listing));
    EntriesOf(names, volumeIds);
    IsoFilesExact(listing);
    forall x ensures x in names <==> x in listing && EndsWith(x, ".iso") {
      assert x in names <==> multiset(names)[x] > 0;
      assert x in listing <==> multiset(listing)[x] > 0;
    }
    HotkeysDistinct();
  }

  /** The default directive names the entry of the current image: when the
      current image is among the listed `.iso` files, the entry for it has
      exactly the default title. */
  lemma DefaultMatchesEntry(cur: string, volumeIds: map<string, string>, listing: seq<string>)
    requires PlanMenu(Some(cur), volumeIds, listing).Ok?
    requires cur in listing && EndsWith(cur, ".iso")
    ensures var m := PlanMenu(Some(cur), volumeIds, listing).value;
      exists i :: 0 <= i < |m.entries| && m.entries[i].filename == cur &&
        Title(m.entries[i].filename, m.entries[i].volumeId) == m.defaultTitle
  {
    var m := PlanMenu(Some(cur), volumeIds, listing).value;
    PlanEntries(Some(cur), volumeIds, listing);
    var i :| 0 <= i < |Filenames(m.entries)| && Filenames(m.entries)[i] == cur;
    assert m.entries[i].filename == cur;
  }

  /** Two names joined to the same directory are the same path only if
      they are the same name. */
  lemma JoinInjective(dir: string, a: string, b: string)
    requires !StartsWith(a, "/") && !StartsWith(b, "/")
    ensures Join(dir, a) == Join(dir, b) ==> a == b
  {
    if dir == [] || dir[|dir| - 1] == '/' {
      assert a == Join(dir, a)[|dir|..];
      assert b == Join(dir, b)[|dir|..];
    } else {
      assert a == Join(dir, a)[|dir| + 1..];
      assert b == Join(dir, b)[|dir| + 1..];
    }
  }

  /** None of the `n` file operations numbered from `from` raises. */
  predicate NoneFail(failing: set<nat>, from: nat, n: nat)
    decreases n
  {
    n == 0 || (from !in failing && NoneFail(failing, from + 1, n - 1))
  }

  /** `NoneFail` says that no operation of the range is a failing one. */
  lemma {:induction false} NoneFailAt(failing: set<nat>, from: nat, n: nat)
    ensures NoneFail(failing, from, n) <==> forall j :: from <= j < from + n ==> j !in failing
    decreases n
  {
    if n > 0 {
      NoneFailAt(failing, from + 1, n - 1);
    }
  }

  /** A run of `n == a + b` operations goes through exactly when its first
      `a` operations and the `b` from `mid == from + a` on do. */
  lemma {:induction false} NoneFailSplit(failing: set<nat>, from: nat, a: nat, b: nat, mid: nat, n: nat)
    requires mid == from + a && n == a + b
    ensures NoneFail(failing, from, n) <==> NoneFail(failing, from, a) && NoneFail(failing, mid, b)
    decreases a
  {
    if a > 0 {
      NoneFailSplit(failing, from + 1, a - 1, b, mid, n - 1);
    }
  }

  /** `p` is the same file in `a` and in `b`, or absent from both. */
  predicate SameFile(a: map<string, string>, b: map<string, string>, p: string)
  {
    (p in a <==> p in b) && (p in a ==> a[p] == b[p])
  }

  /** A file system seen as the contents of each file by path, with the
      number of file operations attempted on it so far. The operation
      numbered k raises `OSError`, changing nothing, exactly when k is in
      `failing`. */
  class FileSystem {
    var files: map<string, string>
    var attempts: nat
    const failing: set<nat>

    constructor (files: map<string, string>, failing: set<nat>)
      ensures this.files == files && this.failing == failing && attempts == 0
    {
      this.files := files;
      this.failing := failing;
      attempts := 0;
    }

    /** Counts one more operation, which goes through exactly when its
        number is not failing. */
    method Attempt() returns (ok: bool)
      modifies this
      ensures attempts == old(attempts) + 1 && ok == (old(attempts) !in failing) && files == old(files)
    {
      ok := attempts !in failing;
      attempts := attempts + 1;
    }

    /** `tempfile.NamedTemporaryFile(dir=dir, delete=False)`: a new empty file
        `<dir>/tmp<suffix>` whose name no file has yet. */
    method CreateTemp(dir: string) returns (ok: bool, path: string, suffix: string)
      modifies this
      ensures attempts == old(attempts) + 1 && ok == (old(attempts) !in failing)
      ensures path !in old(files) && path == Join(dir, "tmp" + suffix)
      ensures ok ==> files == old(files)[path := ""]
      ensures !ok ==> files == old(files)
    {
      var longest: nat := 0;
      var keys := files.Keys;
      while keys != {}
        invariant keys <= files.Keys
        invariant forall k :: k in files && k !in keys ==> |k| <= longest
        decreases keys
      {
        var k :| k in keys;
        if |k| > longest {
          longest := |k|;
        }
        keys := keys - {k};
      }
      suffix := seq(longest, _ => 'x');
      path := Join(dir, "tmp" + suffix);
      ok := Attempt();
      if ok {
        files := files[path := ""];
      }
    }

    /** Writing `text` to the open file `path` appends it. */
    method Write(path: string, text: string) returns (ok: bool)
      requires path in files
      modifies this
      ensures attempts == old(attempts) + 1 && ok == (old(attempts) !in failing)
      ensures ok ==> files == old(files)[path := old(files)[path] + text]
      ensures !ok ==> files == old(files)
    {
      ok := Attempt();
      if ok {
        files := files[path := files[path] + text];
      }
    }

    /** `fh.flush()`: the written text is already in `files`. */
    method Flush(path: string) returns (ok: bool)
      requires path in files
      modifies this
      ensures attempts == old(attempts) + 1 && ok == (old(attempts) !in failing) && files == old(files)
    {
      ok := Attempt();
    }

    /** `os.listdir(dir)`; the names it returns are a parameter of `Update`. */
    method ListDir(dir: string) returns (ok: bool)
      modifies this
      ensures attempts == old(attempts) + 1 && ok == (old(attempts) !in failing) && files == old(files)
    {
      ok := Attempt();
    }

    /** `os.rename(src, dst)`: `dst` now has the contents of `src`, which is
        gone; any old `dst` is replaced in one step. */
    method Rename(src: string, dst: string) returns (ok: bool)
      requires src in files
      modifies this
      ensures attempts == old(attempts) + 1 && ok == (old(attempts) !in failing)
      ensures ok ==> files == (old(files) - {src})[dst := old(files)[src]]
      ensures !ok ==> files == old(files)
    {
      ok := Attempt();
      if ok {
        files := (files - {src})[dst := files[src]];
      }
    }

    /** `os.unlink(path)`. */
    method Unlink(path: string) returns (ok: bool)
      requires path in files
      modifies this
      ensures attempts == old(attempts) + 1 && ok == (old(attempts) !in failing)
      ensures ok ==> files == old(files) - {path}
      ensures !ok ==> files == old(files)
    {
      ok := Attempt();
      if ok {
        files := files - {path};
      }
    }
  }

  /** Proof helper: the text of the entries grows by the text of each
      appended entry. */
  lemma EntriesTextSnoc(imagePath: string, es: seq<MenuEntry>, e: MenuEntry)
    ensures EntriesText(imagePath, es + [e]) == EntriesText(imagePath, es) + EntryText(imagePath, e)
  {
    assert (es + [e])[..|es|] == es;
  }

  // Proof helpers on maps and sequences.

  /** Proof helper: a second update of a key replaces the first. */
  lemma Overwrite(m: map<string, string>, k: string, v: string, w: string)
    ensures m[k := v][k := w] == m[k := w]
  {
  }

  /** Proof helper: concatenation is associative. */
  lemma ConcatAssoc<T>(a: seq<T>, b: seq<T>, c: seq<T>)
    ensures a + b + c == a + (b + c)
  {
  }

  /** Proof helper: adding a fresh key and removing it again gives the map
      back. */
  lemma DropFresh(m: map<string, string>, k: string, v: string)
    requires k !in m
    ensures m[k := v] - {k} == m
  {
  }

  /** Proof helper: removing a key forgets any update of it. */
  lemma DropUpdated(m: map<string, string>, k: string, v: string)
    ensures m[k := v] - {k} == m - {k}
  {
  }

  /** The temp file `tmp<suffix>` of the grub directory is never `grub.cfg`. */
  lemma TempIsNotConfig(bootDir: string, suffix: string)
    ensures Join(Join(bootDir, "grub"), "tmp" + suffix) != GrubCfgPath(bootDir)
  {
    var temp := "tmp" + suffix;
    assert temp[0] == 't' && "grub.cfg"[0] == 'g';
    JoinInjective(Join(bootDir, "grub"), temp, "grub.cfg");
  }

  /** `<boot>/grub/grub.cfg`. */
  function GrubCfgPath(bootDir: string): string
  {
    Join(Join(bootDir, "grub"), "grub.cfg")
  }

  /** What the loop writing the menu entries does from the `i`-th sorted
      name on, when the write of entry k is file operation `from + k`: it
      stops at the first name that has no hotkey or no volume id, or at the
      first write that raises. */
  function EntriesOutcome(names: seq<string>, volumeIds: map<string, string>, failing: set<nat>, from: nat, i: nat)
    : (r: Result<(), GrubError>)
    ensures r.Ok? ==> forall k :: i <= k < |names| ==> Writable(names, volumeIds, k)
    decreases |names| - i
  {
    if i >= |names| then Ok(())
    else if !Writable(names, volumeIds, i) then Err(EntryError(names, i))
    else if from + i in failing then Err(OsError(WriteOp))
    else EntriesOutcome(names, volumeIds, failing, from, i + 1)
  }

  /** The entries loop goes through exactly when every name from the `i`-th
      on can be written and none of their `left` writes, numbered from `at`,
      raises; otherwise it raises the error of the first name that cannot be
      written, or that of a write. */
  lemma {:induction false} EntriesOutcomeIs(names: seq<string>, volumeIds: map<string, string>, failing: set<nat>,
                                            from: nat, i: nat, at: nat, left: nat)
    requires i <= |names| && at == from + i && left == |names| - i
    ensures var r := EntriesOutcome(names, volumeIds, failing, from, i);
      && (r.Ok? <==> FirstBadEntry(names, volumeIds, i).None? && NoneFail(failing, at, left))
      && (r.Err? && !r.error.OsError? ==>
            FirstBadEntry(names, volumeIds, i).Some? && r.error == EntryError(names, FirstBadEntry(names, volumeIds, i).value))
      && (r.Err? && r.error.OsError? ==> r.error == OsError(WriteOp))
    decreases |names| - i
  {
    if i < |names| && Writable(names, volumeIds, i) && from + i !in failing {
      EntriesOutcomeIs(names, volumeIds, failing, from, i + 1, at + 1, left - 1);
    }
  }

  /** Proof helper: one round of the entries loop, with write number `at`. */
  lemma EntriesOutcomeStep(names: seq<string>, volumeIds: map<string, string>, failing: set<nat>,
                           from: nat, i: nat, at: nat)
    requires i < |names| && at == from + i
    ensures !Writable(names, volumeIds, i) ==>
      EntriesOutcome(names, volumeIds, failing, from, i) == Err(EntryError(names, i))
    ensures Writable(names, volumeIds, i) && at in failing ==>
      EntriesOutcome(names, volumeIds, failing, from, i) == Err(OsError(WriteOp))
    ensures Writable(names, volumeIds, i) && at !in failing ==>
      EntriesOutcome(names, volumeIds, failing, from, i) == EntriesOutcome(names, volumeIds, failing, from, i + 1)
  {
  }

  /** Proof helper: a run of two operations. */
  lemma NoneFailTwo(failing: set<nat>, at: nat)
    ensures NoneFail(failing, at, 2) <==> at !in failing && at + 1 !in failing
  {
    assert NoneFail(failing, at + 2, 0);
  }

  /** The flush and the rename of the temp file, starting at file operation
      `at`; the first of them that raises ends the block. */
  function CommitOutcome(failing: set<nat>, at: nat): Result<(), GrubError>
  {
    if at in failing then Err(OsError(FlushOp))
    else if at + 1 in failing then Err(OsError(RenameOp))
    else Ok(())
  }

  /** What the `try` block does once the header is written and the directory
      listed, the entries starting at file operation `from`: the entries,
      then the flush and the rename. */
  function FinishOutcome(names: seq<string>, volumeIds: map<string, string>, failing: set<nat>, from: nat)
    : Result<(), GrubError>
  {
    var entries := EntriesOutcome(names, volumeIds, failing, from, 0);
    if entries.Err? then entries else CommitOutcome(failing, from + |names|)
  }

  /** The rest of the `try` block goes through exactly when every name can
      be written and none of its `|names| + 2` file operations raises;
      otherwise it raises the error of the first name that cannot be
      written, or an `OSError` of a write, the flush or the rename. */
  lemma FinishOutcomeIs(names: seq<string>, volumeIds: map<string, string>, failing: set<nat>, from: nat)
    ensures var r := FinishOutcome(names, volumeIds, failing, from);
      && (r.Ok? <==> FirstBadEntry(names, volumeIds, 0).None? && NoneFail(failing, from, |names| + 2))
      && (r.Err? && !r.error.OsError? ==>
            FirstBadEntry(names, volumeIds, 0).Some? && r.error == EntryError(names, FirstBadEntry(names, volumeIds, 0).value))
      && (r.Err? && r.error.OsError? ==> r.error in {OsError(WriteOp), OsError(FlushOp), OsError(RenameOp)})
  {
    EntriesOutcomeIs(names, volumeIds, failing, from, 0, from, |names|);
    NoneFailSplit(failing, from, |names|, 2, from + |names|, |names| + 2);
    NoneFailTwo(failing, from + |names|);
  }

  /** What the `try` block of `Update` does when its first file operation
      is number `from`: the checks on the current image, the header, the
      listing, then the rest. */
  function TryOutcome(current: Option<string>, volumeIds: map<string, string>, listing: seq<string>,
                      failing: set<nat>, from: nat): Result<(), GrubError>
  {
    match current
    case None => Err(CurrentImageUnavailable)
    case Some(cur) =>
      if cur !in volumeIds then Err(VolumeIdUnavailable(cur))
      else if from in failing then Err(OsError(WriteOp))
      else if from + 1 in failing then Err(OsError(ListDirOp))
      else FinishOutcome(SortDescending(IsoFiles(listing)), volumeIds, failing, from + 2)
  }

  /** Proof helper: sorting keeps the number of names. */
  lemma SortedLength(files: seq<string>)
    ensures |SortDescending(files)| == |files|
  {
    assert |multiset(SortDescending(files))| == |multiset(files)|;
  }

  /** The `try` block goes through exactly when the menu can be planned and
      none of its `|IsoFiles(listing)| + 4` file operations raises; an
      exception other than `OSError` is the one planning the menu meets, and
      the block never raises from a temp file creation or an unlink. */
  lemma TryOutcomeIs(current: Option<string>, volumeIds: map<string, string>, listing: seq<string>,
                     failing: set<nat>, from: nat)
    ensures var r := TryOutcome(current, volumeIds, listing, failing, from);
      && (r.Ok? <==> PlanMenu(current, volumeIds, listing).Ok? && NoneFail(failing, from, |IsoFiles(listing)| + 4))
      && (r.Err? && !r.error.OsError? ==> PlanMenu(current, volumeIds, listing) == Err(r.error))
      && (r.Err? ==> r.error != OsError(CreateTempOp) && r.error != OsError(UnlinkOp))
  {
    var n := |IsoFiles(listing)|;
    NoneFailSplit(failing, from, 2, n + 2, from + 2, n + 4);
    NoneFailTwo(failing, from);
    if current.Some? && current.value in volumeIds {
      var names := SortDescending(IsoFiles(listing));
      SortedLength(IsoFiles(listing));
      PlanByEntries(current.value, volumeIds, listing);
      FinishOutcomeIs(names, volumeIds, failing, from + 2);
    }
  }

  /** One round of the loop: appends the `i`-th menu entry to the temp file. */
  method AppendEntry(fs: FileSystem, tmp: string, imagePath: string, names: seq<string>,
                     volumeIds: map<string, string>, i: nat, ghost start: string)
    returns (ok: bool)
    requires i < |names| && forall k :: 0 <= k <= i ==> Writable(names, volumeIds, k)
    requires tmp in fs.files
    requires fs.files[tmp] == start + EntriesText(imagePath, EntriesUpTo(names, volumeIds, i))
    modifies fs
    ensures fs.attempts == old(fs.attempts) + 1 && ok == (old(fs.attempts) !in fs.failing)
    ensures ok ==> fs.files == old(fs.files)[tmp := start + EntriesText(imagePath, EntriesUpTo(names, volumeIds, i + 1))]
    ensures !ok ==> fs.files == old(fs.files)
  {
    assert Writable(names, volumeIds, i);
    var entry := MenuEntry(names[i], volumeIds[names[i]], Hotkeys[i]);
    assert EntriesUpTo(names, volumeIds, i + 1) == EntriesUpTo(names, volumeIds, i) + [entry];
    EntriesTextSnoc(imagePath, EntriesUpTo(names, volumeIds, i), entry);
    ConcatAssoc(start, EntriesText(imagePath, EntriesUpTo(names, volumeIds, i)), EntryText(imagePath, entry));
    ok := fs.Write(tmp, EntryText(imagePath, entry));
  }

  /** One round of the loop of `Update`: the `i`-th sorted name either stops
      the loop (no hotkey left, or no volume id), or has its entry written,
      which is file operation `first + i`, and the loop goes on. */
  method WriteStep(fs: FileSystem, tmp: string, imagePath: string, names: seq<string>,
                   volumeIds: map<string, string>, i: nat,
                   ghost files0: map<string, string>, ghost start: string, ghost first: nat)
    returns (r: Result<(), GrubError>)
    requires i < |names| && forall k :: 0 <= k < i ==> Writable(names, volumeIds, k)
    requires fs.files == files0[tmp := start + EntriesText(imagePath, EntriesUpTo(names, volumeIds, i))]
    requires fs.attempts == first + i
    modifies fs
    ensures r.Err? ==> r == EntriesOutcome(names, volumeIds, fs.failing, first, i) && fs.files == old(fs.files)
    ensures r.Ok? ==>
      && Writable(names, volumeIds, i)
      && fs.attempts == old(fs.attempts) + 1
      && fs.files == files0[tmp := start + EntriesText(imagePath, EntriesUpTo(names, volumeIds, i + 1))]
      && EntriesOutcome(names, volumeIds, fs.failing, first, i) == EntriesOutcome(names, volumeIds, fs.failing, first, i + 1)
  {
    EntriesOutcomeStep(names, volumeIds, fs.failing, first, i, fs.attempts);
    if i >= |Hotkeys| || names[i] !in volumeIds {
      return Err(EntryError(names, i));
    }
    ghost var before := fs.files;
    var ok := AppendEntry(fs, tmp, imagePath, names, volumeIds, i, start);
    if !ok {
      return Err(OsError(WriteOp));
    }
    Overwrite(files0, tmp, before[tmp], fs.files[tmp]);
    r := Ok(());
  }

  /** The loop of `Update` that appends one menu entry per sorted name to
      the open temp file; it stops at the first entry it cannot write. */
  method WriteEntries(fs: FileSystem, tmp: string, imagePath: string, names: seq<string>,
                      volumeIds: map<string, string>)
    returns (r: Result<(), GrubError>)
    requires tmp in fs.files
    modifies fs
    ensures r == EntriesOutcome(names, volumeIds, fs.failing, old(fs.attempts), 0)
    ensures tmp in fs.files && fs.files == old(fs.files)[tmp := fs.files[tmp]]
    ensures r.Ok? ==>
      && fs.attempts == old(fs.attempts) + |names|
      && fs.files[tmp] == old(fs.files)[tmp] + EntriesText(imagePath, EntriesUpTo(names, volumeIds, |names|))
  {
    ghost var files0, start, first := fs.files, fs.files[tmp], fs.attempts;
    assert EntriesText(imagePath, EntriesUpTo(names, volumeIds, 0)) == "";
    AppendNothing(files0, tmp);
    for i := 0 to |names|
      invariant forall k :: 0 <= k < i ==> Writable(names, volumeIds, k)
      invariant fs.files == files0[tmp := start + EntriesText(imagePath, EntriesUpTo(names, volumeIds, i))]
      invariant fs.attempts == first + i
      invariant EntriesOutcome(names, volumeIds, fs.failing, first, 0) == EntriesOutcome(names, volumeIds, fs.failing, first, i)
    {
      r := WriteStep(fs, tmp, imagePath, names, volumeIds, i, files0, start, first);
      if r.Err? {
        return;
      }
    }
    r := Ok(());
  }

  /** Proof helper: appending nothing to a file leaves the files as they
      are. */
  lemma AppendNothing(m: map<string, string>, k: string)
    requires k in m
    ensures m[k := m[k] + ""] == m
  {
    assert m[k] + "" == m[k];
  }

  /** `fh.flush()` and then `os.rename(tmp, dst)`: the end of the `try`
      block of `Update`. */
  method Commit(fs: FileSystem, tmp: string, dst: string) returns (r: Result<(), GrubError>)
    requires tmp in fs.files
    modifies fs
    ensures r == CommitOutcome(fs.failing, old(fs.attempts))
    ensures r.Ok? ==> fs.attempts == old(fs.attempts) + 2
    ensures r.Ok? ==> fs.files == (old(fs.files) - {tmp})[dst := old(fs.files)[tmp]]
    ensures r.Err? ==> fs.files == old(fs.files)
  {
    var ok := fs.Flush(tmp);
    if !ok {
      return Err(OsError(FlushOp));
    }
    ok := fs.Rename(tmp, dst);
    if !ok {
      return Err(OsError(RenameOp));
    }
    r := Ok(());
  }

  /** The rest of the `try` block of `Update` once the header is in the
      temp file `tmp` and the directory is listed: the entries, the flush and
      the rename over `grub.cfg`. */
  method FinishMenu(u: GrubUpdater, fs: FileSystem, tmp: string, names: seq<string>,
                    volumeIds: map<string, string>)
    returns (r: Result<(), GrubError>)
    requires tmp in fs.files
    modifies fs
    ensures r == FinishOutcome(names, volumeIds, fs.failing, old(fs.attempts))
    ensures r.Ok? ==> fs.attempts == old(fs.attempts) + |names| + 2
    ensures r.Ok? ==>
      fs.files == (old(fs.files) - {tmp})[GrubCfgPath(u.bootDir) :=
        old(fs.files)[tmp] + EntriesText(u.imagePath, EntriesUpTo(names, volumeIds, |names|))]
    ensures r.Err? ==> tmp in fs.files && fs.files == old(fs.files)[tmp := fs.files[tmp]]
  {
    ghost var files0 := fs.files;
    r := WriteEntries(fs, tmp, u.imagePath, names, volumeIds);
    if r.Err? {
      return;
    }
    ghost var files1 := fs.files;
    r := Commit(fs, tmp, Join(Join(u.bootDir, "grub"), "grub.cfg"));
    if r.Ok? {
      DropUpdated(files0, tmp, files1[tmp]);
    }
  }

  /** The `try` block of `Update`, on the new empty temp file `tmp`. */
  method WriteMenu(u: GrubUpdater, fs: FileSystem, tmp: string, listing: seq<string>, current: Option<string>,
                   volumeIds: map<string, string>)
    returns (r: Result<(), GrubError>)
    requires tmp in fs.files && fs.files[tmp] == ""
    modifies fs
    ensures r == TryOutcome(current, volumeIds, listing, fs.failing, old(fs.attempts))
    ensures r.Ok? ==> fs.attempts == old(fs.attempts) + |IsoFiles(listing)| + 4
    ensures r.Ok? ==>
      PlanMenu(current, volumeIds, listing).Ok? &&
      fs.files == (old(fs.files) - {tmp})[GrubCfgPath(u.bootDir) := MenuText(u.imagePath, PlanMenu(current, volumeIds, listing).value)]
    ensures r.Err? ==> tmp in fs.files && fs.files == old(fs.files)[tmp := fs.files[tmp]]
  {
    ghost var files0 := fs.files;
    if current.None? {
      return Err(CurrentImageUnavailable);
    }
    var cur := current.value;
    if cur !in volumeIds {
      return Err(VolumeIdUnavailable(cur));
    }
    var header := HeaderText(Title(cur, volumeIds[cur]));
    var ok := fs.Write(tmp, header);
    if !ok {
      return Err(OsError(WriteOp));
    }
    assert "" + header == header;
    ok := fs.ListDir(u.imageDir);
    if !ok {
      return Err(OsError(ListDirOp));
    }
    var files := ListIsoFiles(listing);
    var names := SortDescending(files);
    r := FinishMenu(u, fs, tmp, names, volumeIds);
    if r.Ok? {
      FinishedPlan(cur, volumeIds, listing, fs.failing, old(fs.attempts) + 2);
      DropUpdated(files0, tmp, header);
    }
  }

  /** Proof helper: once the rest of the `try` block goes through, the menu
      plan succeeds with the entries of all the sorted names. */
  lemma FinishedPlan(cur: string, volumeIds: map<string, string>, listing: seq<string>, failing: set<nat>, from: nat)
    requires cur in volumeIds
    requires FinishOutcome(SortDescending(IsoFiles(listing)), volumeIds, failing, from).Ok?
    ensures var names := SortDescending(IsoFiles(listing));
      && |names| == |IsoFiles(listing)|
      && PlanMenu(Some(cur), volumeIds, listing) == Ok(Menu(Title(cur, volumeIds[cur]), EntriesUpTo(names, volumeIds, |names|)))
  {
    var names := SortDescending(IsoFiles(listing));
    SortedLength(IsoFiles(listing));
    PlanByEntries(cur, volumeIds, listing);
    FinishOutcomeIs(names, volumeIds, failing, from);
  }

  /** `Update` goes through exactly when the menu can be planned and none of
      its `|IsoFiles(listing)| + 5` file operations raises; an exception
      other than `OSError` is the one planning the menu meets. */
  lemma UpdateResultIs(current: Option<string>, volumeIds: map<string, string>, listing: seq<string>,
                       failing: set<nat>, from: nat, r: Result<(), GrubError>)
    requires from in failing ==> r == Err(OsError(CreateTempOp))
    requires from !in failing ==>
      var t := TryOutcome(current, volumeIds, listing, failing, from + 1);
      r == t || (t.Err? && r == Err(OsError(UnlinkOp)))
    ensures r.Ok? <==>
      PlanMenu(current, volumeIds, listing).Ok? && NoneFail(failing, from, |IsoFiles(listing)| + 5)
    ensures r.Err? && !r.error.OsError? ==> PlanMenu(current, volumeIds, listing) == Err(r.error)
  {
    var n := |IsoFiles(listing)|;
    NoneFailSplit(failing, from, 1, n + 4, from + 1, n + 5);
    TryOutcomeIs(current, volumeIds, listing, failing, from + 1);
  }

  /** The `try` block of `Update` and its `except` clause, on the new empty
      temp file `tmp` that the files `before` did not have: on an exception
      the temp file is unlinked and the exception raised again, unless the
      unlink raises, whose exception then replaces the first. */
  method TryAndClean(u: GrubUpdater, fs: FileSystem, tmp: string, listing: seq<string>, current: Option<string>,
                     volumeIds: map<string, string>, ghost before: map<string, string>)
    returns (r: Result<(), GrubError>)
    requires tmp !in before && tmp != GrubCfgPath(u.bootDir) && fs.files == before[tmp := ""]
    modifies fs
    ensures var t := TryOutcome(current, volumeIds, listing, fs.failing, old(fs.attempts));
      r == t || (t.Err? && r == Err(OsError(UnlinkOp)))
    ensures r.Ok? ==> fs.attempts == old(fs.attempts) + |IsoFiles(listing)| + 4
    ensures r.Ok? ==>
      PlanMenu(current, volumeIds, listing).Ok? &&
      fs.files == before[GrubCfgPath(u.bootDir) := MenuText(u.imagePath, PlanMenu(current, volumeIds, listing).value)]
    ensures r.Err? && r.error != OsError(UnlinkOp) ==> fs.files == before
    ensures r == Err(OsError(UnlinkOp)) ==> tmp in fs.files && fs.files - {tmp} == before
  {
    r := WriteMenu(u, fs, tmp, listing, current, volumeIds);
    if r.Ok? {
      DropFresh(before, tmp, "");
      return;
    }
    TryOutcomeIs(current, volumeIds, listing, fs.failing, old(fs.attempts));
    ghost var left := fs.files[tmp];
    Overwrite(before, tmp, "", left);
    DropFresh(before, tmp, left);
    var unlinked := fs.Unlink(tmp);
    if !unlinked {
      r := Err(OsError(UnlinkOp));
    }
  }

  /** `GrubUpdater.Update`. `grub.cfg` changes only by the rename of a temp
      file of the grub directory that holds the whole new menu, so every
      exception leaves it as it was. A failure to create the temp file
      changes nothing. On an exception inside the `try` block the temp file
      is unlinked; only when that unlink raises too does the temp file stay,
      and that exception replaces the first. */
  method Update(u: GrubUpdater, fs: FileSystem, listing: seq<string>, current: Option<string>,
                volumeIds: map<string, string>)
    returns (r: Result<(), GrubError>)
    modifies fs
    ensures old(fs.attempts) in fs.failing ==> r == Err(OsError(CreateTempOp))
    ensures old(fs.attempts) !in fs.failing ==>
      var t := TryOutcome(current, volumeIds, listing, fs.failing, old(fs.attempts) + 1);
      r == t || (t.Err? && r == Err(OsError(UnlinkOp)))
    ensures r.Ok? ==> fs.attempts == old(fs.attempts) + |IsoFiles(listing)| + 5
    ensures r.Ok? ==>
      PlanMenu(current, volumeIds, listing).Ok? &&
      fs.files == old(fs.files)[GrubCfgPath(u.bootDir) := MenuText(u.imagePath, PlanMenu(current, volumeIds, listing).value)]
    ensures r.Err? ==> SameFile(old(fs.files), fs.files, GrubCfgPath(u.bootDir))
    ensures r.Err? && r.error != OsError(UnlinkOp) ==> fs.files == old(fs.files)
    ensures r == Err(OsError(UnlinkOp)) ==>
      exists t :: t in fs.files && t !in old(fs.files) && t != GrubCfgPath(u.bootDir) && fs.files - {t} == old(fs.files)
  {
    ghost var before := fs.files;
    var created, tmp, suffix := fs.CreateTemp(Join(u.bootDir, "grub"));
    if !created {
      return Err(OsError(CreateTempOp));
    }
    TempIsNotConfig(u.bootDir, suffix);
    r := TryAndClean(u, fs, tmp, listing, current, volumeIds, before);
    if r == Err(OsError(UnlinkOp)) {
      assert tmp in fs.files && tmp !in before && tmp != GrubCfgPath(u.bootDir);
    }
  }
}
