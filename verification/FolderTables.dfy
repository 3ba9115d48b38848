// The statements of FolderForest carried out in place: the referential actions of the database
// and the two-statement CreateFolder (internal/metadata/service.go, internal/metadata/repository.go).
module FolderTables {
  import opened FolderForest
  import opened Prelude

  type Folders = map<FolderId, Folder>

  function Children(folders: Folders, f: FolderId): set<FolderId>
  {
    set c | c in folders && folders[c].parent == Some(f)
  }

  /** In a cascade from `root`: what is deleted or due was reached from a deleted parent, */
  predicate Reached(folders: Folders, root: FolderId, gone: set<FolderId>, due: set<FolderId>)
  {
    && root in gone + due && gone !! due && gone + due <= folders.Keys
    && forall f :: f in gone + due && f != root ==> folders[f].parent.Some? && folders[f].parent.value in gone
  }

  /** and so lies beneath the root; */
  predicate AllBeneath(births: map<FolderId, Birth>, root: FolderId, some: set<FolderId>)
    requires Ranked(births)
  {
    forall f :: f in some ==> f in births && Beneath(births, f, root)
  }

  /** the children of what is deleted are deleted or due. */
  predicate Followed(folders: Folders, gone: set<FolderId>, due: set<FolderId>)
  {
    forall f :: f in folders && folders[f].parent.Some? && folders[f].parent.value in gone ==> f in gone + due
  }

  predicate Cascading(start: Db, root: FolderId, gone: set<FolderId>, due: set<FolderId>)
    requires Ranked(start.births)
  {
    && Reached(start.folders, root, gone, due) && AllBeneath(start.births, root, gone + due)
    && Followed(start.folders, gone, due)
  }

  lemma ReachesOn(folders: Folders, root: FolderId, gone: set<FolderId>, due: set<FolderId>, f: FolderId)
    requires Reached(folders, root, gone, due) && Followed(folders, gone, due) && f in due
    requires root !in Children(folders, f) && f !in Children(folders, f)
    ensures Reached(folders, root, gone + {f}, due - {f} + Children(folders - gone, f))
    ensures Followed(folders, gone + {f}, due - {f} + Children(folders - gone, f))
  {
  }

  lemma CascadesOn(start: Db, root: FolderId, gone: set<FolderId>, due: set<FolderId>, f: FolderId)
    requires Ranked(start.births) && AllBorn(start.folders, start.births) && Cascading(start, root, gone, due)
    requires f in due
    ensures Cascading(start, root, gone + {f}, due - {f} + Children(start.folders - gone, f))
  {
    assert f in gone + due;
    BeneathIsLater(start.births, f, root);
    forall c | c in Children(start.folders, f)
      ensures c in start.births && Beneath(start.births, c, root) && c != f && c != root
    {
      ChainOf(start.births, c, root);
    }
    hide Beneath, Ranked;
    ReachesOn(start.folders, root, gone, due, f);
  }

  /** A set closed under children that holds the root holds the whole subtree. */
  lemma {:induction false} HoldsSubtree(start: Db, root: FolderId, gone: set<FolderId>, f: FolderId)
    requires Ranked(start.births) && AllBorn(start.folders, start.births) && FolderKeys(start.folders)
    requires Cascading(start, root, gone, {}) && f in start.folders && Beneath(start.births, f, root)
    ensures f in gone
    decreases start.births[f].rank
  {
    ChainOf(start.births, f, root);
    if f != root {
      assert ParentExists(start.folders, start.folders[f].parent);
      HoldsSubtree(start, root, gone, start.folders[f].parent.value);
    }
  }

  lemma CascadeDone(start: Db, root: FolderId, gone: set<FolderId>)
    requires Ranked(start.births) && AllBorn(start.folders, start.births) && FolderKeys(start.folders)
    requires Cascading(start, root, gone, {})
    ensures gone == Subtree(start, root)
  {
    forall f | f in Subtree(start, root) ensures f in gone {
      HoldsSubtree(start, root, gone, f);
    }
    assert gone + {} == gone;
  }

  lemma WithoutOneMore(db: Db, gone: set<FolderId>, f: FolderId)
    ensures Without(Without(db, gone), {f}) == Without(db, gone + {f})
  {
    var one, both := Without(Without(db, gone), {f}), Without(db, gone + {f});
    assert FilesIn(db, gone + {f}) == FilesIn(db, gone) + FilesIn(Without(db, gone), {f});
    assert one.folders == both.folders && one.files == both.files && one.links == both.links;
  }

  lemma CascadeStarts(start: Db, root: FolderId)
    requires Ranked(start.births) && AllBorn(start.folders, start.births) && root in start.folders
    ensures Cascading(start, root, {}, {root}) && Without(start, {}) == start
  {
    ChainOf(start.births, root, root);
    assert FilesIn(start, {}) == {};
    assert Without(start, {}).links == start.links;
  }

  lemma DueExist(start: Db, root: FolderId, gone: set<FolderId>, due: set<FolderId>)
    requires Ranked(start.births) && Cascading(start, root, gone, due)
    ensures due <= Without(start, gone).folders.Keys
  {
  }

  class Tables {
    var db: Db

    constructor ()
      ensures db == Empty() && Inv(db)
    {
      db := Empty();
    }

    method VerifyFolderOwnership(user: UserId, id: FolderId) returns (reply: Reply)
      requires Inv(db)
      modifies this
      ensures Inv(db) && (db, reply) == Apply(old(db), Verify(user, id))
      ensures var t := old(db);
        if id in t.folders && t.folders[id].owner == user
        then reply == Done && db == t.(tickets := t.tickets + {(user, id)})
        else reply == NotFound && db == t
    {
      StepKeeps(db, Verify(user, id));
      if id in db.folders && db.folders[id].owner == user {
        db := db.(tickets := db.tickets + {(user, id)});
        return Done;
      }
      return NotFound;
    }

    method InsertFolder(user: UserId, parent: Option<FolderId>, name: string, id: FolderId) returns (reply: Reply)
      requires Inv(db) && Enabled(db, Step.InsertFolder(user, parent, name, id))
      modifies this
      ensures Inv(db) && (db, reply) == Apply(old(db), Step.InsertFolder(user, parent, name, id))
      ensures var t := old(db);
        var taken := exists f :: f in t.folders && t.folders[f].owner == user && t.folders[f].parent == parent
                                 && t.folders[f].name == name;
        && reply == (if taken then Duplicate
                     else if parent.Some? && parent.value !in t.folders then Violation else Done)
        && db.folders == (if reply == Done then t.folders[id := Folder(user, parent, name)] else t.folders)
        && db.files == t.files && db.links == t.links && db.chunks == t.chunks
    {
      StepKeeps(db, Step.InsertFolder(user, parent, name, id));
      var row := Folder(user, parent, name);
      if NameTaken(db.folders, row) {
        return Duplicate;
      }
      if parent.Some? && parent.value !in db.folders {
        return Violation;
      }
      db := db.(folders := db.folders[id := row], births := db.births[id := Birth(row, |db.births|)]);
      return Done;
    }

    /**
     * ON DELETE CASCADE: each row deleted takes the rows that refer to it. Somebody else's folder,
     * or none, is not found, and nothing changes; otherwise exactly the subtree goes.
     */
    method DeleteFolder(user: UserId, id: FolderId) returns (reply: Reply)
      requires Inv(db)
      modifies this
      ensures Inv(db) && (db, reply) == Apply(old(db), Step.DeleteFolder(user, id))
      ensures id !in old(db).folders || old(db).folders[id].owner != user ==> db == old(db) && reply == NotFound
      ensures id in old(db).folders && old(db).folders[id].owner == user ==>
        reply == Done && SubtreeGone(old(db), db, id)
    {
      StepKeeps(db, Step.DeleteFolder(user, id));
      if id !in db.folders || db.folders[id].owner != user {
        return NotFound;
      }
      CascadeTakesSubtree(db, user, id);
      DeleteRows(id);
      return Done;
    }

    /** The cascade, one folder row at a time. */
    method DeleteRows(id: FolderId)
      requires Inv(db) && id in db.folders
      modifies this
      ensures db == Cascade(old(db), id)
    {
      ghost var start := db;
      var due := {id};
      ghost var gone := {};
      CascadeStarts(start, id);
      hide FolderKeys, FileKeys, LinkKeys, InnerNamesUnique, RootNamesUnique, FileNamesUnique;
      hide Ranked, RanksBelow, SameOwner, AllBorn, TicketsHold, Reached, AllBeneath, Followed;
      while due != {}
        invariant Cascading(start, id, gone, due) && db == Without(start, gone) && due <= db.folders.Keys
        decreases |db.folders|
      {
        var f :| f in due;
        CascadesOn(start, id, gone, due, f);
        WithoutOneMore(start, gone, f);
        due := due - {f} + Children(db.folders, f);
        gone := gone + {f};
        DueExist(start, id, gone, due);
        assert db.folders.Keys - {f} < db.folders.Keys;
        db := WithoutFiles(db, FilesIn(db, {f})).(folders := db.folders - {f});
      }
      CascadeDone(start, id, gone);
    }

    /** The row of an upload: its folder has passed the ownership check. */
    method InsertFile(user: UserId, folder: Option<FolderId>, name: string, id: FileId) returns (reply: Reply)
      requires Inv(db) && Enabled(db, Step.InsertFile(user, folder, name, id))
      modifies this
      ensures Inv(db) && (db, reply) == Apply(old(db), Step.InsertFile(user, folder, name, id))
      ensures var t := old(db);
        var taken := exists g :: g in t.files && t.files[g].owner == user && t.files[g].folder == folder
                                 && t.files[g].name == name;
        && reply == (if taken then Duplicate
                     else if folder.Some? && folder.value !in t.folders then Violation else Done)
        && db == if reply == Done then t.(files := t.files[id := File(user, folder, name)]) else t
    {
      StepKeeps(db, Step.InsertFile(user, folder, name, id));
      var row := File(user, folder, name);
      if FileNameTaken(db.files, row) {
        return Duplicate;
      }
      if folder.Some? && folder.value !in db.folders {
        return Violation;
      }
      db := db.(files := db.files[id := row]);
      return Done;
    }

    /** Somebody else's file, or none, is not found; otherwise the row goes, and its links with it. */
    method DeleteFile(user: UserId, id: FileId) returns (reply: Reply)
      requires Inv(db)
      modifies this
      ensures Inv(db) && (db, reply) == Apply(old(db), Step.DeleteFile(user, id))
      ensures id !in old(db).files || old(db).files[id].owner != user ==> db == old(db) && reply == NotFound
      ensures id in old(db).files && old(db).files[id].owner == user ==> reply == Done && OnlyFileGone(old(db), db, id)
    {
      StepKeeps(db, Step.DeleteFile(user, id));
      if id !in db.files || db.files[id].owner != user {
        return NotFound;
      }
      db := WithoutFiles(db, {id});
      return Done;
    }

    /** ON DELETE RESTRICT: a chunk row that some link uses stays. */
    method DeleteChunk(chunk: ChunkId) returns (reply: Reply)
      requires Inv(db)
      modifies this
      ensures Inv(db) && (db, reply) == Apply(old(db), Step.DeleteChunk(chunk))
      ensures (exists l :: l in old(db).links && old(db).links[l] == chunk) ==> db == old(db) && reply == Violation
      ensures (forall l :: l in old(db).links ==> old(db).links[l] != chunk) ==>
        db == old(db).(chunks := old(db).chunks - {chunk}) && reply == Done
    {
      StepKeeps(db, Step.DeleteChunk(chunk));
      if chunk in db.links.Values {
        return Violation;
      }
      db := db.(chunks := db.chunks - {chunk});
      return Done;
    }

    /**
     * The ownership check and the insert are two statements, and any requests may come between
     * them. Whatever they do, the new folder ends up in a tree that is all its owner's.
     */
    method CreateFolder(user: UserId, parent: Option<FolderId>, name: string, id: FolderId, meanwhile: seq<Step>)
      returns (reply: Reply)
      requires Inv(db) && IsRun(Checked(db, user, parent), meanwhile)
      requires id !in After(Checked(db, user, parent), meanwhile).births
      modifies this
      ensures Inv(db)
      ensures parent.Some? && !Owns(old(db).folders, user, parent.value) ==> (db, reply) == (old(db), NotFound)
      ensures (parent.Some? ==> Owns(old(db).folders, user, parent.value)) ==>
        var inserting := Step.InsertFolder(user, parent, name, id);
        (db, reply) == Apply(After(Checked(old(db), user, parent), meanwhile), inserting)
      ensures reply == Done ==>
        && id in db.folders && db.folders[id] == Folder(user, parent, name)
        && forall a :: a in Chain(db.births, id) ==> Owns(db.folders, user, a)
    {
      if parent.Some? {
        reply := VerifyFolderOwnership(user, parent.value);
        if reply != Done {
          return;
        }
      }
      TicketsStay(db, meanwhile);
      db := After(db, meanwhile);
      reply := InsertFolder(user, parent, name, id);
      if reply == Done {
        OneOwnerToTheRoot(db, id);
      }
    }
  }

  /** Row by row: what is beneath the folder is gone, and everything else is as it was. */
  ghost predicate SubtreeGone(before: Db, after: Db, root: FolderId)
    requires Inv(before)
  {
    && (forall f :: f in after.folders <==> f in before.folders && !Beneath(before.births, f, root))
    && (forall f :: f in after.folders ==> after.folders[f] == before.folders[f])
    && (forall g :: g in after.files <==> g in before.files && !InTree(before, g, root))
    && (forall g :: g in after.files ==> after.files[g] == before.files[g])
    && (forall l :: l in after.links <==> l in before.links && !InTree(before, l.0, root))
    && (forall l :: l in after.links ==> after.links[l] == before.links[l])
    && after.chunks == before.chunks && after.tickets == before.tickets && after.births == before.births
  }

  lemma CascadeTakesSubtree(db: Db, user: UserId, root: FolderId)
    requires Inv(db) && root in db.folders && db.folders[root].owner == user
    ensures SubtreeGone(db, Cascade(db, root), root)
  {
    CascadeStaysWithin(db, user, root);
  }

  ghost predicate OnlyFileGone(before: Db, after: Db, id: FileId)
  {
    && (forall g :: g in after.files <==> g in before.files && g != id)
    && (forall g :: g in after.files ==> after.files[g] == before.files[g])
    && (forall l :: l in after.links <==> l in before.links && l.0 != id)
    && (forall l :: l in after.links ==> after.links[l] == before.links[l])
    && after.folders == before.folders && after.chunks == before.chunks
  }

  /** The state after CreateFolder's ownership check. */
  function Checked(db: Db, user: UserId, parent: Option<FolderId>): (checked: Db)
    requires Inv(db)
    ensures Inv(checked)
  {
    if parent.Some? then (StepKeeps(db, Verify(user, parent.value)); Apply(db, Verify(user, parent.value)).0) else db
  }

  lemma {:induction false} TicketsStay(db: Db, steps: seq<Step>)
    requires Inv(db) && IsRun(db, steps)
    ensures db.tickets <= After(db, steps).tickets
    decreases |steps|
  {
    hide FolderKeys, FileKeys, LinkKeys, InnerNamesUnique, RootNamesUnique, FileNamesUnique;
    hide Ranked, RanksBelow, SameOwner, AllBorn, TicketsHold, NameTaken, FileNameTaken;
    if steps != [] {
      StepKeeps(db, steps[0]);
      TicketsStay(Apply(db, steps[0]).0, steps[1..]);
    }
  }
}
