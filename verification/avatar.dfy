/**
 * Avatar selection: the directory listing is a parameter (the entries
 * os.ReadDir would return, or its error) and rand.Intn(n) is `choice % n`
 * for an arbitrary `choice`, so every index in [0, n) is reachable.
 */
module Avatar {
  import opened Common

  const AvatarDir := "assets/avatars/"

  const NoAvatarFiles := "no avatar files found"

  /** A directory entry: its name and whether it is a directory. */
  datatype DirEntry = DirEntry(name: string, isDir: bool)

  /**
   * filepath.Ext: the suffix from the last '.' of the final path element,
   * or "" when that element has none.
   */
  function Ext(path: string): (e: string)
    ensures |e| <= |path| && e == path[|path| - |e|..]
    ensures e != [] ==> e[0] == '.'
  {
    if path == [] then ""
    else
      var c := path[|path| - 1];
      if c == '/' then ""
      else if c == '.' then "."
      else
        var e := Ext(path[..|path| - 1]);
        if e == [] then "" else e + [c]
  }

  /** Scanning back from the end: a '.' ends the scan, another character extends it. */
  lemma ExtSnoc(path: string, c: char)
    ensures c == '.' ==> Ext(path + [c]) == "."
    ensures c != '.' && c != '/' && Ext(path) != "" ==> Ext(path + [c]) == Ext(path) + [c]
  {
    assert (path + [c])[..|path + [c]| - 1] == path;
  }

  /** A name ending in ".png" has extension ".png". */
  lemma ExtOfPngName(base: string)
    ensures Ext(base + ".png") == ".png"
  {
    var p1 := base + ['.'];
    var p2 := p1 + ['p'];
    var p3 := p2 + ['n'];
    ExtSnoc(base, '.');
    ExtSnoc(p1, 'p');
    ExtSnoc(p2, 'n');
    ExtSnoc(p3, 'g');
    assert p3 + ['g'] == base + ".png";
  }

  /** The extension is ".png" exactly when the name ends in ".png". */
  lemma ExtIsPngIffSuffix(name: string)
    ensures Ext(name) == ".png" <==> |name| >= 4 && name[|name| - 4..] == ".png"
  {
    if |name| >= 4 && name[|name| - 4..] == ".png" {
      var base := name[..|name| - 4];
      assert name == base + name[|name| - 4..];
      ExtOfPngName(base);
    }
  }

  /** The loop's test: an entry that is not a directory and whose extension is exactly ".png". */
  predicate IsAvatarFile(entry: DirEntry)
  {
    !entry.isDir && Ext(entry.name) == ".png"
  }

  /** The names of the qualifying entries, in directory order. */
  function AvatarFiles(entries: seq<DirEntry>): (names: seq<string>)
    ensures |names| <= |entries|
  {
    if entries == [] then []
    else
      var last := entries[|entries| - 1];
      AvatarFiles(entries[..|entries| - 1]) + (if IsAvatarFile(last) then [last.name] else [])
  }

  lemma AvatarFilesSnoc(entries: seq<DirEntry>, entry: DirEntry)
    ensures AvatarFiles(entries + [entry]) == AvatarFiles(entries) + (if IsAvatarFile(entry) then [entry.name] else [])
  {
    assert (entries + [entry])[..|entries + [entry]| - 1] == entries;
  }

  /** Filtering distributes over concatenation: the list keeps the directory's order. */
  lemma {:induction false} AvatarFilesAppend(xs: seq<DirEntry>, ys: seq<DirEntry>)
    ensures AvatarFiles(xs + ys) == AvatarFiles(xs) + AvatarFiles(ys)
  {
    if ys == [] {
      assert xs + ys == xs;
    } else {
      var ys' := ys[..|ys| - 1];
      assert (xs + ys)[..|xs + ys| - 1] == xs + ys';
      AvatarFilesAppend(xs, ys');
    }
  }

  /** Every listed name belongs to a qualifying entry. */
  lemma {:induction false} AvatarFilesSound(entries: seq<DirEntry>, k: nat)
    requires k < |AvatarFiles(entries)|
    ensures exists i :: 0 <= i < |entries| && IsAvatarFile(entries[i]) && entries[i].name == AvatarFiles(entries)[k]
  {
    var init := entries[..|entries| - 1];
    var last := entries[|entries| - 1];
    if k < |AvatarFiles(init)| {
      AvatarFilesSound(init, k);
      var i :| 0 <= i < |init| && IsAvatarFile(init[i]) && init[i].name == AvatarFiles(init)[k];
      assert entries[i] == init[i];
    } else {
      assert entries[|entries| - 1] == last;
    }
  }

  /** Every qualifying entry is listed. */
  lemma {:induction false} AvatarFilesComplete(entries: seq<DirEntry>, i: nat)
    requires i < |entries| && IsAvatarFile(entries[i])
    ensures entries[i].name in AvatarFiles(entries)
  {
    var init := entries[..|entries| - 1];
    if i < |entries| - 1 {
      assert init[i] == entries[i];
      AvatarFilesComplete(init, i);
    }
  }

  /**
   * SelectRandomAvatar over the listing: a read error is returned as is, an
   * empty selection is an error, otherwise the name at index choice % n.
   */
  method SelectRandomAvatar(listing: Result<seq<DirEntry>, string>, choice: nat) returns (r: Result<string, string>)
    ensures listing.Failure? ==> r == Failure(listing.error)
    ensures listing.Success? && AvatarFiles(listing.value) == [] ==> r == Failure(NoAvatarFiles)
    ensures listing.Success? && AvatarFiles(listing.value) != [] ==>
      var names := AvatarFiles(listing.value);
      r == Success(names[choice % |names|])
  {
    if listing.Failure? {
      return Failure(listing.error);
    }
    var files := listing.value;
    var avatarFiles: seq<string> := [];
    var i := 0;
    while i < |files|
      invariant 0 <= i <= |files|
      invariant avatarFiles == AvatarFiles(files[..i])
    {
      assert files[..i + 1] == files[..i] + [files[i]];
      AvatarFilesSnoc(files[..i], files[i]);
      if !files[i].isDir && Ext(files[i].name) == ".png" {
        avatarFiles := avatarFiles + [files[i].name];
      }
      i := i + 1;
    }
    assert files[..i] == files;
    if |avatarFiles| == 0 {
      return Failure(NoAvatarFiles);
    }
    var randomIndex := choice % |avatarFiles|;
    r := Success(avatarFiles[randomIndex]);
  }

  /** A selected name is a qualifying entry's name. */
  lemma SelectionIsAvatarFile(entries: seq<DirEntry>, choice: nat)
    requires AvatarFiles(entries) != []
    ensures var names := AvatarFiles(entries);
      exists i :: 0 <= i < |entries| && IsAvatarFile(entries[i]) && entries[i].name == names[choice % |names|]
  {
    var names := AvatarFiles(entries);
    AvatarFilesSound(entries, choice % |names|);
  }

  /** GetAvatarPath */
  function GetAvatarPath(avatarFileName: string): (path: string)
    ensures |path| == |AvatarDir| + |avatarFileName|
    ensures path[..|AvatarDir|] == AvatarDir && path[|AvatarDir|..] == avatarFileName
  {
    AvatarDir + avatarFileName
  }

  /** Distinct file names give distinct paths. */
  lemma GetAvatarPathInjective(a: string, b: string)
    requires GetAvatarPath(a) == GetAvatarPath(b)
    ensures a == b
  {
    assert a == GetAvatarPath(a)[|AvatarDir|..];
  }
}
