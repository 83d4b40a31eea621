/**
 * The vector store lifecycle: a mutable corpus of chunks and a similarity index
 * rebuilt in full, and persisted, on every add or remove. The index is
 * represented by the chunk sequence it was built from (the embeddings are not
 * modelled); the index directory by a map from file name to the saved index.
 */
module VectorStore {
  import opened Common

  /** A FAISS index, identified with the documents it was built from, in order. */
  datatype Index = Index(docs: seq<Doc>)

  /** The two files `save_local` writes into the index directory. */
  const INDEX_FILE: string := "index.faiss"
  const DOCSTORE_FILE: string := "index.pkl"

  /** True when the chunk's `title` metadata equals `title`; a chunk without a title matches no title. */
  predicate HasTitle(c: Doc, title: string)
    ensures HasTitle(c, title) <==> "title" in c.metadata && c.metadata["title"] == Str(title)
  {
    Get(c.metadata, "title") == Str(title)
  }

  /** The list comprehension of `remove_document`: the chunks whose title is not `title`. */
  function WithoutTitle(chunks: seq<Doc>, title: string): (r: seq<Doc>)
    ensures |r| <= |chunks|
    ensures forall c :: c in r <==> c in chunks && !HasTitle(c, title)
  {
    if chunks == [] then []
    else if HasTitle(chunks[0], title) then WithoutTitle(chunks[1..], title)
    else [chunks[0]] + WithoutTitle(chunks[1..], title)
  }

  /** Filtering keeps the original order: it distributes over concatenation. */
  lemma {:induction false} WithoutTitleAppend(a: seq<Doc>, b: seq<Doc>, title: string)
    ensures WithoutTitle(a + b, title) == WithoutTitle(a, title) + WithoutTitle(b, title)
    decreases |a|
  {
    if a == [] {
      assert a + b == b;
    } else {
      assert (a + b)[1..] == a[1..] + b;
      WithoutTitleAppend(a[1..], b, title);
    }
  }

  /** Removing a title that no chunk carries changes nothing. */
  lemma {:induction false} WithoutAbsentTitle(chunks: seq<Doc>, title: string)
    requires forall c :: c in chunks ==> !HasTitle(c, title)
    ensures WithoutTitle(chunks, title) == chunks
    decreases |chunks|
  {
    if chunks != [] {
      assert chunks[0] in chunks;
      WithoutAbsentTitle(chunks[1..], title);
    }
  }

  /** Removing the same title twice is the same as removing it once. */
  lemma WithoutTitleIdempotent(chunks: seq<Doc>, title: string)
    ensures WithoutTitle(WithoutTitle(chunks, title), title) == WithoutTitle(chunks, title)
  {
    WithoutAbsentTitle(WithoutTitle(chunks, title), title);
  }

  /** Removing a title every chunk carries leaves nothing. */
  lemma {:induction false} WithoutAllTitled(chunks: seq<Doc>, title: string)
    requires forall c :: c in chunks ==> HasTitle(c, title)
    ensures WithoutTitle(chunks, title) == []
    decreases |chunks|
  {
    if chunks != [] {
      assert chunks[0] in chunks;
      WithoutAllTitled(chunks[1..], title);
    }
  }

  /** Removing a title removes all of a batch carrying it, and only that from the rest. */
  lemma RemoveAddedTitle(old_: seq<Doc>, added: seq<Doc>, title: string)
    requires forall c :: c in added ==> HasTitle(c, title)
    ensures WithoutTitle(old_ + added, title) == WithoutTitle(old_, title)
  {
    WithoutTitleAppend(old_, added, title);
    WithoutAllTitled(added, title);
    assert WithoutTitle(old_, title) + [] == WithoutTitle(old_, title);
  }

  class VectorStoreService {
    /** `_chunks`: every chunk added and not removed, in insertion order. */
    var chunks: seq<Doc>
    /** `store`: the index, or None. */
    var store: Option<Index>
    /** The index directory: each file name with the index it saves. */
    var disk: map<string, Index>

    /**
     * What every add or remove re-establishes: the index exists exactly when
     * the corpus is non-empty, is built from exactly the corpus, and is what
     * the directory holds; an empty corpus leaves the directory empty.
     */
    ghost predicate Synced()
      reads this
      ensures Synced() ==> (INDEX_FILE in disk <==> store.Some?)
      ensures Synced() && store.Some? ==> disk[INDEX_FILE] == store.value
    {
      && (store.None? <==> chunks == [])
      && (store.Some? ==> store.value == Index(chunks))
      && (chunks == [] ==> disk == map[])
      && (chunks != [] ==>
            && INDEX_FILE in disk && disk[INDEX_FILE] == Index(chunks)
            && DOCSTORE_FILE in disk && disk[DOCSTORE_FILE] == Index(chunks))
    }

    /**
     * `__init__`: an empty corpus, and the index loaded from the directory when
     * `index.faiss` is there. The corpus itself is not reloaded, so `Synced`
     * need not hold until the first add or remove.
     */
    constructor (persisted: map<string, Index>)
      ensures chunks == [] && disk == persisted
      ensures store == if INDEX_FILE in persisted then Some(persisted[INDEX_FILE]) else None
    {
      chunks := [];
      store := None;
      disk := persisted;
      new;
      LoadIndex();
    }

    /** `_load_index`. */
    method LoadIndex()
      modifies this`store
      ensures store == if INDEX_FILE in disk then Some(disk[INDEX_FILE]) else old(store)
    {
      if INDEX_FILE in disk {
        store := Some(disk[INDEX_FILE]);
      }
    }

    /** `add_documents`: append, then rebuild and persist. */
    method AddDocuments(newChunks: seq<Doc>)
      modifies this
      ensures chunks == old(chunks) + newChunks
      ensures Synced()
      ensures chunks != [] ==> disk == old(disk)[INDEX_FILE := Index(chunks)][DOCSTORE_FILE := Index(chunks)]
    {
      chunks := chunks + newChunks;
      RebuildAndPersist();
    }

    /** `remove_document`: keep the chunks not titled `title`, then rebuild and persist. */
    method RemoveDocument(title: string)
      modifies this
      ensures chunks == WithoutTitle(old(chunks), title)
      ensures Synced()
      ensures chunks != [] ==> disk == old(disk)[INDEX_FILE := Index(chunks)][DOCSTORE_FILE := Index(chunks)]
    {
      chunks := WithoutTitle(chunks, title);
      RebuildAndPersist();
    }

    /** `_rebuild_and_persist`: drop the index and clear the directory, or rebuild and save. */
    method RebuildAndPersist()
      modifies this
      ensures chunks == old(chunks)
      ensures Synced()
      ensures chunks != [] ==> disk == old(disk)[INDEX_FILE := Index(chunks)][DOCSTORE_FILE := Index(chunks)]
    {
      if chunks == [] {
        store := None;
        ClearDisk();
        return;
      }
      store := Some(Index(chunks));
      SaveLocal();
    }

    /** `save_local`: both files are overwritten; any other file stays. */
    method SaveLocal()
      requires store.Some?
      modifies this`disk
      ensures disk == old(disk)[INDEX_FILE := store.value][DOCSTORE_FILE := store.value]
    {
      disk := disk[INDEX_FILE := store.value][DOCSTORE_FILE := store.value];
    }

    /** `_clear_disk`: delete every file the directory lists, one at a time. */
    method ClearDisk()
      modifies this`disk
      ensures disk == map[]
    {
      var names := disk.Keys;
      while names != {}
        invariant disk.Keys == names
        decreases names
      {
        var f :| f in names;
        disk := disk - {f};
        names := names - {f};
      }
      assert disk.Keys == {};
    }

    /** `get_store`: fails with the `RuntimeError` exactly when there is no index. */
    method GetStore() returns (r: Result<Index>)
      ensures r.Failure? <==> store.None?
      ensures r.Failure? ==> r.error == "Vector store is empty"
      ensures store.Some? ==> r.value == store.value
    {
      if store.None? {
        return Failure("Vector store is empty");
      }
      return Success(store.value);
    }
  }

  /**
   * Adding two chunks titled "A", then one titled "B", then removing "A" leaves
   * exactly the "B" chunk, indexed and saved.
   */
  method AddAddRemoveScenario(a1: string, a2: string, b: string) returns (left: seq<Doc>, index: Result<Index>)
    ensures left == [Doc(b, map["title" := Str("B")])]
    ensures index == Success(Index(left))
  {
    var vs := new VectorStoreService(map[]);
    var ca1 := Doc(a1, map["title" := Str("A")]);
    var ca2 := Doc(a2, map["title" := Str("A")]);
    var cb := Doc(b, map["title" := Str("B")]);
    vs.AddDocuments([ca1, ca2]);
    vs.AddDocuments([cb]);
    vs.RemoveDocument("A");
    assert [ca1, ca2] + [cb] == [ca1, ca2, cb];
    assert [ca1, ca2, cb][1..] == [ca2, cb] && [ca2, cb][1..] == [cb] && [cb][1..] == [];
    assert HasTitle(ca1, "A") && HasTitle(ca2, "A") && !HasTitle(cb, "A");
    assert WithoutTitle([cb], "A") == [cb];
    assert WithoutTitle([ca1, ca2, cb], "A") == [cb];
    left := vs.chunks;
    index := vs.GetStore();
  }

  /**
   * After a restart the index is reloaded but the corpus is empty, so the next
   * add builds an index over the new chunks only, dropping what was persisted.
   */
  method RestartThenAdd(persisted: Index, added: seq<Doc>)
    returns (loaded: Option<Index>, rebuilt: Option<Index>, saved: Index)
    requires added != []
    ensures loaded == Some(persisted)
    ensures rebuilt == Some(Index(added)) && saved == Index(added)
  {
    var vs := new VectorStoreService(map[INDEX_FILE := persisted, DOCSTORE_FILE := persisted]);
    loaded := vs.store;
    vs.AddDocuments(added);
    assert vs.chunks == [] + added == added;
    rebuilt := vs.store;
    saved := vs.disk[INDEX_FILE];
  }
}
