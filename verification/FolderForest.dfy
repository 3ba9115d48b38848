// The folder tree: rows, keys and cascades of `folders`, `files` and `file_chunks`
// (internal/metadata/service.go, internal/metadata/repository.go, internal/storage/repository.go,
// migrations/00002, 00003 and 00007). Any number of requests interleave, one statement at a time;
// a request that has passed its ownership check may insert at any later moment.
module FolderForest {
  import opened Prelude

  type UserId = nat
  type FolderId = nat
  type FileId = nat
  type ChunkId = nat

  datatype Folder = Folder(owner: UserId, parent: Option<FolderId>, name: string)
  datatype File = File(owner: UserId, folder: Option<FolderId>, name: string)

  /** A folder as it was inserted, and how many were inserted before it. */
  datatype Birth = Birth(row: Folder, rank: nat)

  datatype Db = Db(
    folders: map<FolderId, Folder>,
    files: map<FileId, File>,
    links: map<(FileId, nat), ChunkId>,
    chunks: set<ChunkId>,
    tickets: set<(UserId, FolderId)>,      // requests past VerifyFolderOwnership
    births: map<FolderId, Birth>)          // every folder ever inserted; ids are never issued twice

  function Empty(): Db
  {
    Db(map[], map[], map[], {}, {}, map[])
  }

  datatype Step =
    | Verify(user: UserId, id: FolderId)
    | InsertFolder(user: UserId, parent: Option<FolderId>, name: string, id: FolderId)
    | InsertFile(user: UserId, folder: Option<FolderId>, name: string, id: FileId)
    | DeleteFolder(user: UserId, id: FolderId)
    | DeleteFile(user: UserId, id: FileId)
    | SweepFile(id: FileId)
    | InsertChunk(chunk: ChunkId)
    | LinkChunk(id: FileId, index: nat, chunk: ChunkId)
    | DeleteChunk(chunk: ChunkId)

  datatype Reply = Done | NotFound | Duplicate | Violation

  /** An insert comes with a new id and, unless it is for the root, after the ownership check. */
  predicate Enabled(db: Db, step: Step)
  {
    match step
    case InsertFolder(user, parent, _, id) => id !in db.births && (parent.Some? ==> (user, parent.value) in db.tickets)
    case InsertFile(user, folder, _, id) => id !in db.files && (folder.Some? ==> (user, folder.value) in db.tickets)
    case _ => true
  }

  predicate Owns(folders: map<FolderId, Folder>, user: UserId, id: FolderId)
  {
    id in folders && folders[id].owner == user
  }

  /** The paired partial indexes: the same name in the same folder, or at the root, of the same user. */
  predicate NameTaken(folders: map<FolderId, Folder>, row: Folder)
  {
    exists f :: f in folders && folders[f] == row
  }

  predicate FileNameTaken(files: map<FileId, File>, row: File)
  {
    exists g :: g in files && files[g] == row
  }

  /** The foreign key of a folder or file. */
  predicate ParentExists(folders: map<FolderId, Folder>, parent: Option<FolderId>)
  {
    parent.Some? ==> parent.value in folders
  }

  function WithoutFiles(db: Db, gone: set<FileId>): Db
  {
    db.(files := db.files - gone, links := map l | l in db.links && l.0 !in gone :: db.links[l])
  }

  function Apply(db: Db, step: Step): (Db, Reply)
    requires Ranked(db.births) && AllBorn(db.folders, db.births)
  {
    match step
    case Verify(user, id) =>
      if Owns(db.folders, user, id) then (db.(tickets := db.tickets + {(user, id)}), Done) else (db, NotFound)
    case InsertFolder(user, parent, name, id) =>
      var row := Folder(user, parent, name);
      if NameTaken(db.folders, row) then (db, Duplicate)
      else if !ParentExists(db.folders, parent) then (db, Violation)
      else (db.(folders := db.folders[id := row], births := db.births[id := Birth(row, |db.births|)]), Done)
    case InsertFile(user, folder, name, id) =>
      var row := File(user, folder, name);
      if FileNameTaken(db.files, row) then (db, Duplicate)
      else if !ParentExists(db.folders, folder) then (db, Violation)
      else (db.(files := db.files[id := row]), Done)
    case DeleteFolder(user, id) =>
      if Owns(db.folders, user, id) then (Cascade(db, id), Done) else (db, NotFound)
    case DeleteFile(user, id) =>
      if id in db.files && db.files[id].owner == user then (WithoutFiles(db, {id}), Done) else (db, NotFound)
    case SweepFile(id) => (WithoutFiles(db, {id}), Done)
    case InsertChunk(chunk) => (db.(chunks := db.chunks + {chunk}), Done)
    case LinkChunk(id, index, chunk) =>
      if id in db.files && chunk in db.chunks && (id, index) !in db.links
      then (db.(links := db.links[(id, index) := chunk]), Done)
      else (db, Violation)
    case DeleteChunk(chunk) =>
      if chunk in db.links.Values then (db, Violation) else (db.(chunks := db.chunks - {chunk}), Done)
  }

  // ---- The way to the root ----

  /** A parent is inserted before its children. */
  predicate Ranked(births: map<FolderId, Birth>)
  {
    forall f :: f in births && births[f].row.parent.Some? ==>
      var p := births[f].row.parent.value; p in births && births[p].rank < births[f].rank
  }

  predicate AllBorn(folders: map<FolderId, Folder>, births: map<FolderId, Birth>)
  {
    forall f :: f in folders ==> f in births && births[f].row == folders[f]
  }

  /** A folder and its ancestors, up to the root. */
  function Chain(births: map<FolderId, Birth>, f: FolderId): (chain: seq<FolderId>)
    requires Ranked(births) && f in births
    ensures |chain| > 0 && chain[0] == f && forall i :: 0 <= i < |chain| ==> chain[i] in births
    decreases births[f].rank
  {
    match births[f].row.parent
    case None => [f]
    case Some(p) => [f] + Chain(births, p)
  }

  /** f is root or somewhere beneath it. */
  predicate Beneath(births: map<FolderId, Birth>, f: FolderId, root: FolderId)
    requires Ranked(births) && f in births
  {
    root in Chain(births, f)
  }

  function Subtree(db: Db, root: FolderId): set<FolderId>
    requires Ranked(db.births) && AllBorn(db.folders, db.births)
  {
    set f | f in db.folders && Beneath(db.births, f, root)
  }

  function FilesIn(db: Db, folders: set<FolderId>): set<FileId>
  {
    set g | g in db.files && db.files[g].folder.Some? && db.files[g].folder.value in folders
  }

  /** Without some folders, their files and those files' links. */
  function Without(db: Db, gone: set<FolderId>): Db
  {
    WithoutFiles(db, FilesIn(db, gone)).(folders := db.folders - gone)
  }

  /** What DELETE FROM folders leaves: the whole subtree is gone. */
  function Cascade(db: Db, root: FolderId): Db
    requires Ranked(db.births) && AllBorn(db.folders, db.births)
  {
    Without(db, Subtree(db, root))
  }

  lemma ChainOf(births: map<FolderId, Birth>, f: FolderId, root: FolderId)
    requires Ranked(births) && f in births
    ensures Beneath(births, f, root) <==>
      f == root || (births[f].row.parent.Some? && Beneath(births, births[f].row.parent.value, root))
  {
  }

  /** Going up lowers the rank, so the way up never comes back. */
  lemma {:induction false} BeneathIsLater(births: map<FolderId, Birth>, f: FolderId, root: FolderId)
    requires Ranked(births) && f in births && Beneath(births, f, root)
    ensures root in births && (f == root || births[root].rank < births[f].rank)
    decreases births[f].rank
  {
    ChainOf(births, f, root);
    if f != root {
      BeneathIsLater(births, births[f].row.parent.value, root);
    }
  }

  // ---- The invariant ----

  predicate RanksBelow(births: map<FolderId, Birth>)
  {
    forall f :: f in births ==> births[f].rank < |births|
  }

  /** A folder is inserted under a folder of the same user. */
  predicate SameOwner(births: map<FolderId, Birth>)
    requires Ranked(births)
  {
    forall f :: f in births && births[f].row.parent.Some? ==>
      births[births[f].row.parent.value].row.owner == births[f].row.owner
  }

  predicate TicketsHold(tickets: set<(UserId, FolderId)>, births: map<FolderId, Birth>)
  {
    forall t :: t in tickets ==> t.1 in births && births[t.1].row.owner == t.0
  }

  predicate FolderKeys(folders: map<FolderId, Folder>)
  {
    forall f :: f in folders ==> ParentExists(folders, folders[f].parent)
  }

  predicate FileKeys(folders: map<FolderId, Folder>, files: map<FileId, File>)
  {
    forall g :: g in files && files[g].folder.Some? ==> Owns(folders, files[g].owner, files[g].folder.value)
  }

  predicate LinkKeys(files: map<FileId, File>, links: map<(FileId, nat), ChunkId>, chunks: set<ChunkId>)
  {
    forall l :: l in links ==> l.0 in files && links[l] in chunks
  }

  /** What the index on (user_id, parent_id, name) keeps, */
  predicate InnerNamesUnique(folders: map<FolderId, Folder>)
  {
    forall f, g :: f in folders && g in folders && folders[f] == folders[g] && folders[f].parent.Some? ==> f == g
  }

  /** and the one on (user_id, name) for root folders. */
  predicate RootNamesUnique(folders: map<FolderId, Folder>)
  {
    forall f, g :: f in folders && g in folders && folders[f] == folders[g] && folders[f].parent.None? ==> f == g
  }

  predicate FileNamesUnique(files: map<FileId, File>)
  {
    forall f, g :: f in files && g in files && files[f] == files[g] ==> f == g
  }

  predicate History(db: Db)
  {
    && Ranked(db.births) && RanksBelow(db.births) && SameOwner(db.births)
    && AllBorn(db.folders, db.births) && TicketsHold(db.tickets, db.births)
  }

  predicate Inv(db: Db)
  {
    && History(db) && FolderKeys(db.folders) && FileKeys(db.folders, db.files)
    && LinkKeys(db.files, db.links, db.chunks)
    && InnerNamesUnique(db.folders) && RootNamesUnique(db.folders) && FileNamesUnique(db.files)
  }

  /** A new folder is the youngest, and nobody's parent yet. */
  lemma BirthKeeps(births: map<FolderId, Birth>, id: FolderId, row: Folder)
    requires Ranked(births) && RanksBelow(births) && SameOwner(births) && id !in births
    requires row.parent.Some? ==> row.parent.value in births && births[row.parent.value].row.owner == row.owner
    ensures var births' := births[id := Birth(row, |births|)];
      Ranked(births') && RanksBelow(births') && SameOwner(births')
  {
    assert |births[id := Birth(row, |births|)]| == |births| + 1;
  }

  lemma InsertFolderKeeps(db: Db, user: UserId, parent: Option<FolderId>, name: string, id: FolderId)
    requires Inv(db) && Enabled(db, InsertFolder(user, parent, name, id))
    ensures Inv(Apply(db, InsertFolder(user, parent, name, id)).0)
  {
    hide Ranked, RanksBelow, SameOwner, FileNamesUnique, LinkKeys, FolderKeys, FileKeys, InnerNamesUnique,
      RootNamesUnique, AllBorn;
    var row := Folder(user, parent, name);
    if !NameTaken(db.folders, row) && ParentExists(db.folders, parent) {
      NewRowKeeps(db, id, row);
    }
  }

  lemma NewRowKeeps(db: Db, id: FolderId, row: Folder)
    requires Inv(db) && id !in db.births && !NameTaken(db.folders, row) && ParentExists(db.folders, row.parent)
    requires row.parent.Some? ==> (row.owner, row.parent.value) in db.tickets
    ensures Inv(db.(folders := db.folders[id := row], births := db.births[id := Birth(row, |db.births|)]))
  {
    hide FileNamesUnique, LinkKeys, FolderKeys, FileKeys, InnerNamesUnique, RootNamesUnique;
    BirthKeeps(db.births, id, row);
    assert id !in db.folders;
    RowKeeps(db.folders, db.files, id, row);
    hide Ranked, RanksBelow, SameOwner;
  }

  lemma RowKeeps(folders: map<FolderId, Folder>, files: map<FileId, File>, id: FolderId, row: Folder)
    requires id !in folders && FolderKeys(folders) && FileKeys(folders, files) && InnerNamesUnique(folders)
    requires RootNamesUnique(folders)
    requires !NameTaken(folders, row) && ParentExists(folders, row.parent)
    ensures var folders' := folders[id := row];
      FolderKeys(folders') && FileKeys(folders', files) && InnerNamesUnique(folders') && RootNamesUnique(folders')
  {
  }

  lemma InsertFileKeeps(db: Db, user: UserId, folder: Option<FolderId>, name: string, id: FileId)
    requires Inv(db) && Enabled(db, InsertFile(user, folder, name, id))
    ensures Inv(Apply(db, InsertFile(user, folder, name, id)).0)
  {
    hide Ranked, RanksBelow, SameOwner, FolderKeys, InnerNamesUnique, RootNamesUnique;
    assert folder.Some? ==> (user, folder.value) in db.tickets;
  }

  lemma FilesGo(db: Db, gone: set<FileId>)
    requires Inv(db)
    ensures Inv(WithoutFiles(db, gone))
  {
    hide Ranked, RanksBelow, SameOwner, InnerNamesUnique, RootNamesUnique;
  }

  lemma CascadeKeeps(db: Db, root: FolderId)
    requires Inv(db)
    ensures Inv(Cascade(db, root))
  {
    var tree, db' := Subtree(db, root), Cascade(db, root);
    forall f | f in db'.folders ensures ParentExists(db'.folders, db'.folders[f].parent) {
      ChainOf(db.births, f, root);
      assert ParentExists(db.folders, db.folders[f].parent);
    }
    forall g | g in db'.files && db'.files[g].folder.Some?
      ensures Owns(db'.folders, db'.files[g].owner, db'.files[g].folder.value)
    {
      assert Owns(db.folders, db.files[g].owner, db.files[g].folder.value);
    }
  }

  lemma TicketKeeps(db: Db, user: UserId, id: FolderId)
    requires Inv(db)
    ensures Inv(Apply(db, Verify(user, id)).0)
  {
    hide Ranked, RanksBelow, SameOwner, InnerNamesUnique, RootNamesUnique, FileNamesUnique, FolderKeys, FileKeys,
      LinkKeys;
  }

  lemma ChunkStepKeeps(db: Db, step: Step)
    requires Inv(db) && (step.InsertChunk? || step.LinkChunk? || step.DeleteChunk?)
    ensures Inv(Apply(db, step).0)
  {
    hide Ranked, RanksBelow, SameOwner, AllBorn, TicketsHold, InnerNamesUnique, RootNamesUnique, FileNamesUnique,
      FolderKeys, FileKeys;
  }

  lemma StepKeeps(db: Db, step: Step)
    requires Inv(db) && Enabled(db, step)
    ensures Inv(Apply(db, step).0)
  {
    hide Ranked, RanksBelow, SameOwner, AllBorn, TicketsHold, InnerNamesUnique, RootNamesUnique, FileNamesUnique,
      FolderKeys, FileKeys, LinkKeys;
    hide Cascade, WithoutFiles, NameTaken, FileNameTaken;
    match step
    case Verify(user, id) => TicketKeeps(db, user, id);
    case InsertFolder(user, parent, name, id) => InsertFolderKeeps(db, user, parent, name, id);
    case InsertFile(user, folder, name, id) => InsertFileKeeps(db, user, folder, name, id);
    case DeleteFolder(user, id) => CascadeKeeps(db, id);
    case DeleteFile(user, id) => FilesGo(db, {id});
    case SweepFile(id) => FilesGo(db, {id});
    case _ => ChunkStepKeeps(db, step);
  }

  predicate IsRun(db: Db, steps: seq<Step>)
    requires Inv(db)
    decreases |steps|
  {
    steps == [] || (Enabled(db, steps[0]) && (StepKeeps(db, steps[0]); IsRun(Apply(db, steps[0]).0, steps[1..])))
  }

  function After(db: Db, steps: seq<Step>): (after: Db)
    requires Inv(db) && IsRun(db, steps)
    ensures Inv(after)
    decreases |steps|
  {
    if steps == [] then db else (StepKeeps(db, steps[0]); After(Apply(db, steps[0]).0, steps[1..]))
  }

  // ---- What holds in every reachable state ----

  /** Every folder has a way up to a root folder, through rows that exist and belong to its owner. */
  lemma {:induction false} OneOwnerToTheRoot(db: Db, f: FolderId)
    requires Inv(db) && f in db.folders
    ensures var chain := Chain(db.births, f);
      && (forall a :: a in chain ==> Owns(db.folders, db.folders[f].owner, a))
      && db.births[chain[|chain| - 1]].row.parent == None
      && (forall i :: 0 <= i < |chain| - 1 ==> db.births[chain[i]].row.parent == Some(chain[i + 1]))
    decreases db.births[f].rank
  {
    var parent := db.folders[f].parent;
    assert ParentExists(db.folders, parent);
    if parent.Some? {
      OneOwnerToTheRoot(db, parent.value);
    }
  }

  /** And so has every file, through the folder it is in. */
  lemma FileUnderOneOwner(db: Db, g: FileId)
    requires Inv(db) && g in db.files && db.files[g].folder.Some?
    ensures db.files[g].folder.value in db.folders
    ensures forall a :: a in Chain(db.births, db.files[g].folder.value) ==> Owns(db.folders, db.files[g].owner, a)
  {
    assert Owns(db.folders, db.files[g].owner, db.files[g].folder.value);
    OneOwnerToTheRoot(db, db.files[g].folder.value);
  }

  /** No folder lies beneath a folder that lies beneath it. */
  lemma NoCycle(db: Db, f: FolderId, g: FolderId)
    requires Inv(db) && f in db.folders && g in db.folders && Beneath(db.births, f, g) && Beneath(db.births, g, f)
    ensures f == g
  {
    BeneathIsLater(db.births, f, g);
    BeneathIsLater(db.births, g, f);
  }

  /**
   * DeleteFolder takes exactly the folders beneath the one deleted, the files in them and the links
   * of those; all of it is its owner's, and no chunk row goes.
   */
  lemma CascadeStaysWithin(db: Db, user: UserId, root: FolderId)
    requires Inv(db) && Owns(db.folders, user, root)
    ensures var after := Cascade(db, root);
      && (forall f :: f in db.folders ==> (f !in after.folders <==> Beneath(db.births, f, root)))
      && (forall g :: g in db.files ==> (g !in after.files <==> InTree(db, g, root)))
      && (forall l :: l in db.links ==> (l !in after.links <==> l.0 !in after.files))
      && after.folders.Keys <= db.folders.Keys && after.files.Keys <= db.files.Keys && after.links.Keys <= db.links.Keys
      && after.chunks == db.chunks
      && (forall f :: f in db.folders && f !in after.folders ==> db.folders[f].owner == user)
      && (forall g :: g in db.files && g !in after.files ==> db.files[g].owner == user)
  {
    var after := Cascade(db, root);
    forall f | f in db.folders && f !in after.folders ensures db.folders[f].owner == user {
      OneOwnerToTheRoot(db, f);
    }
    forall g | g in db.files && g !in after.files ensures db.files[g].owner == user {
      assert Owns(db.folders, db.files[g].owner, db.files[g].folder.value);
      OneOwnerToTheRoot(db, db.files[g].folder.value);
    }
    forall g | g in db.files ensures g !in after.files <==> InTree(db, g, root) {
      assert db.files[g].folder.Some? ==> Owns(db.folders, db.files[g].owner, db.files[g].folder.value);
    }
  }

  /** The file is in a folder beneath root. */
  predicate InTree(db: Db, g: FileId, root: FolderId)
    requires Ranked(db.births) && g in db.files
  {
    && db.files[g].folder.Some? && db.files[g].folder.value in db.births
    && Beneath(db.births, db.files[g].folder.value, root)
  }

  // ---- Paths ----

  /** The names from the root down to a folder. */
  function Path(births: map<FolderId, Birth>, f: FolderId): (path: seq<string>)
    requires Ranked(births) && f in births
    ensures |path| > 0 && path[|path| - 1] == births[f].row.name && (|path| == 1 <==> births[f].row.parent.None?)
    decreases births[f].rank
  {
    match births[f].row.parent
    case None => [births[f].row.name]
    case Some(p) => Path(births, p) + [births[f].row.name]
  }

  function FilePath(db: Db, g: FileId): (path: seq<string>)
    requires Ranked(db.births) && AllBorn(db.folders, db.births) && FileKeys(db.folders, db.files) && g in db.files
    ensures |path| == 1 <==> db.files[g].folder.None?
  {
    match db.files[g].folder
    case None => [db.files[g].name]
    case Some(f) => assert Owns(db.folders, db.files[g].owner, f); Path(db.births, f) + [db.files[g].name]
  }

  /** A path names the folders of the chain, from the root down. */
  lemma {:induction false} PathNamesChain(births: map<FolderId, Birth>, f: FolderId)
    requires Ranked(births) && f in births
    ensures var path, chain := Path(births, f), Chain(births, f);
      |path| == |chain| && forall i :: 0 <= i < |path| ==> path[i] == births[chain[|chain| - 1 - i]].row.name
    decreases births[f].rank
  {
    if births[f].row.parent.Some? {
      PathNamesChain(births, births[f].row.parent.value);
    }
  }

  lemma LastName(p: seq<string>, a: string, q: seq<string>, b: string)
    requires p + [a] == q + [b]
    ensures p == q && a == b
  {
    assert (p + [a])[..|p|] == p && (q + [b])[..|q|] == q;
    assert (p + [a])[|p|] == a && (q + [b])[|q|] == b;
  }

  /** A user and a path identify at most one folder. */
  lemma {:induction false} PathIdentifiesFolder(db: Db, f: FolderId, g: FolderId)
    requires History(db) && FolderKeys(db.folders) && InnerNamesUnique(db.folders) && RootNamesUnique(db.folders)
    requires f in db.folders && g in db.folders && db.folders[f].owner == db.folders[g].owner
    requires Path(db.births, f) == Path(db.births, g)
    ensures f == g
    decreases db.births[f].rank
  {
    var p, q := db.folders[f].parent, db.folders[g].parent;
    assert ParentExists(db.folders, p) && ParentExists(db.folders, q);
    if p.Some? && q.Some? {
      LastName(Path(db.births, p.value), db.folders[f].name, Path(db.births, q.value), db.folders[g].name);
      PathIdentifiesFolder(db, p.value, q.value);
    }
    assert db.folders[f] == db.folders[g];
  }

  predicate PathsDistinct(db: Db)
    requires History(db)
  {
    forall f, g | f in db.folders && g in db.folders && db.folders[f].owner == db.folders[g].owner ::
      Path(db.births, f) == Path(db.births, g) ==> f == g
  }

  /** The index on root folders is just what that takes: without it two root folders could share a path. */
  lemma PathsNeedRootIndex(db: Db)
    requires History(db) && FolderKeys(db.folders) && InnerNamesUnique(db.folders)
    ensures PathsDistinct(db) <==> RootNamesUnique(db.folders)
  {
    if RootNamesUnique(db.folders) {
      forall f, g | f in db.folders && g in db.folders && db.folders[f].owner == db.folders[g].owner
                    && Path(db.births, f) == Path(db.births, g)
        ensures f == g
      {
        PathIdentifiesFolder(db, f, g);
      }
    } else {
      var f, g :| f in db.folders && g in db.folders && f != g
                  && db.folders[f] == db.folders[g] && db.folders[f].parent.None?;
      assert Path(db.births, f) == Path(db.births, g) == [db.folders[f].name];
    }
  }

  /** A table the older constraint on (user_id, parent_id, name) lets pass: two root folders on one path. */
  lemma OlderConstraintLetsPass(user: UserId, name: string)
    ensures var row := Folder(user, None, name);
      var db := Empty().(folders := map[0 := row, 1 := row], births := map[0 := Birth(row, 0), 1 := Birth(row, 1)]);
      History(db) && FolderKeys(db.folders) && InnerNamesUnique(db.folders) && !PathsDistinct(db)
  {
    var row := Folder(user, None, name);
    var db := Empty().(folders := map[0 := row, 1 := row], births := map[0 := Birth(row, 0), 1 := Birth(row, 1)]);
    assert |db.births| == 2;
    PathsNeedRootIndex(db);
    assert db.folders[0] == db.folders[1] && 0 in db.folders && 1 in db.folders;
  }

  /** And at most one file. */
  lemma PathIdentifiesFile(db: Db, f: FileId, g: FileId)
    requires Inv(db) && f in db.files && g in db.files && db.files[f].owner == db.files[g].owner
    requires FilePath(db, f) == FilePath(db, g)
    ensures f == g
  {
    var p, q := db.files[f].folder, db.files[g].folder;
    if p.Some? && q.Some? {
      assert Owns(db.folders, db.files[f].owner, p.value) && Owns(db.folders, db.files[g].owner, q.value);
      LastName(Path(db.births, p.value), db.files[f].name, Path(db.births, q.value), db.files[g].name);
      PathIdentifiesFolder(db, p.value, q.value);
    }
    assert db.files[f] == db.files[g];
  }
}
