/** Invariants tying the catalog to S3: every committed file of a timely write has its object,
    and every object of such a write is either committed or tracked by a pending_writes row,
    whatever writes that are not timely do beside it. */
module CatalogStorage {
  import opened KeyCodec
  import opened Catalog
  import opened CatalogCore

  ghost predicate Recorded(s: State, k: string)
  {
    exists id :: id in s.files && s.files[id].key == k
  }

  // The key is one that newS3Key makes for this partition.
  ghost predicate Places(e: Env, part: string, k: string)
  {
    exists u :: SlashFree(u) && k == DataKey(e.prefix, part, u)
  }

  // ---------- objects ----------

  ghost predicate KeysKnown(s: State)
  {
    && (forall k :: k in s.s3 ==> k in s.used)
    && (forall k :: k in s.uploads ==> k in s.used)
    && (forall k :: k in s.pending ==> k in s.used)
  }

  ghost predicate UploadOk(s: State, k: string)
    requires k in s.uploads
  {
    k in s.pending && s.pending[k] == s.uploads[k].since && !Recorded(s, k)
  }

  ghost predicate UploadsOk(e: Env, s: State)
  {
    forall k :: k in s.uploads && e.timely(k) ==> UploadOk(s, k)
  }

  ghost predicate Tracked(e: Env, s: State)
  {
    forall k :: k in s.s3 && e.timely(k) ==> k in s.pending || Recorded(s, k)
  }

  ghost predicate Stored(e: Env, s: State, r: FileRow)
  {
    && r.key in s.s3 && s.s3[r.key] == ObjectOf(r)
    && r.key !in s.pending && r.key !in s.uploads
    && Places(e, r.part, r.key)
  }

  ghost predicate FilesStored(e: Env, s: State)
  {
    forall id :: id in s.files && e.timely(s.files[id].key) ==> Stored(e, s, s.files[id])
  }

  // ---------- writers ----------

  ghost predicate KeyOk(e: Env, s: State, x: Writer)
  {
    && (OwnsKey(x.pc) ==> Places(e, x.req.part, x.key))
    && (Live(x.pc) && e.timely(x.key) ==> x.key in s.pending && s.pending[x.key] == x.since)
    && (OwnsKey(x.pc) && !PutAttempted(x.pc) ==> x.key !in s.s3 && x.key !in s.uploads)
    && (x.pc.Putting? && x.key in s.uploads ==> s.uploads[x.key] == Upload(WriterObject(x), x.since))
    && (x.pc.Putting? && x.key in s.s3 ==> s.s3[x.key] == WriterObject(x))
    && (x.pc.Tail? || x.pc.Commit? ==> x.key !in s.uploads && (x.key in s.s3 ==> s.s3[x.key] == WriterObject(x)))
    && ((x.pc.Tail? || x.pc.Commit?) && e.timely(x.key) ==> x.key in s.s3)
  }

  ghost predicate KeysOk(e: Env, s: State)
  {
    forall w :: w in s.writers ==> KeyOk(e, s, s.writers[w])
  }

  // ---------- time ----------

  ghost predicate InTime(e: Env, s: State)
  {
    && (forall w :: w in s.writers && Live(s.writers[w].pc) && e.timely(s.writers[w].key) ==> s.clock <= s.writers[w].since + e.grace)
    && (forall k :: k in s.uploads && e.timely(k) ==> s.clock <= s.uploads[k].since + e.grace)
  }

  // ---------- garbage collection ----------

  // Nobody will ever write, upload or commit this key again.
  ghost predicate Dead(s: State, k: string)
  {
    && k in s.used && !Recorded(s, k) && k !in s.uploads
    && forall w :: w in s.writers && Live(s.writers[w].pc) ==> s.writers[w].key != k
  }

  ghost predicate SweepOk(e: Env, s: State, x: Gc)
  {
    && x.cutoff + e.grace <= s.clock
    && (forall i :: 0 <= i < |x.keys| && e.timely(x.keys[i]) ==> Dead(s, x.keys[i]))
    && (x.pc.DeleteRow? && |x.keys| > 0 && e.timely(x.keys[0]) ==> x.keys[0] !in s.s3)
  }

  ghost predicate SweepsOk(e: Env, s: State)
  {
    forall g :: g in s.gcs ==> SweepOk(e, s, s.gcs[g])
  }

  ghost predicate Storage(e: Env, s: State)
  {
    KeysKnown(s) && UploadsOk(e, s) && Tracked(e, s) && FilesStored(e, s) && KeysOk(e, s) && InTime(e, s) && SweepsOk(e, s)
  }

  lemma InitStorage(e: Env)
    ensures Storage(e, Init())
  {
  }

  // ---------- frames ----------

  ghost predicate SameAt(s: State, t: State, k: string)
  {
    && (k in t.pending <==> k in s.pending) && (k in s.pending ==> t.pending[k] == s.pending[k])
    && (k in t.s3 <==> k in s.s3) && (k in s.s3 ==> t.s3[k] == s.s3[k])
    && (k in t.uploads <==> k in s.uploads) && (k in s.uploads ==> t.uploads[k] == s.uploads[k])
  }

  // The committed keys and objects are as before, up to offsets.
  lemma RecordedKept(s: State, t: State, k: string)
    requires SameRows(s, t)
    ensures Recorded(t, k) <==> Recorded(s, k)
  {
    if Recorded(s, k) {
      var id :| id in s.files && s.files[id].key == k;
      assert id in t.files && t.files[id].key == k;
    }
    if Recorded(t, k) {
      var id :| id in t.files && t.files[id].key == k;
      assert id in s.files && s.files[id].key == k;
    }
  }

  // S3, uploads, pending rows and committed keys do not move.
  ghost predicate SameObjects(s: State, t: State)
  {
    SameRows(s, t) && t.s3 == s.s3 && t.uploads == s.uploads && t.pending == s.pending && t.used == s.used
  }

  lemma ObjectsKept(e: Env, s: State, t: State)
    requires SameObjects(s, t) && KeysKnown(s) && UploadsOk(e, s) && Tracked(e, s) && FilesStored(e, s)
    ensures KeysKnown(t) && UploadsOk(e, t) && Tracked(e, t) && FilesStored(e, t)
  {
    forall k ensures Recorded(t, k) <==> Recorded(s, k) { RecordedKept(s, t, k); }
    forall k | k in t.uploads && e.timely(k) ensures UploadOk(t, k) { assert UploadOk(s, k); }
    forall id | id in t.files && e.timely(t.files[id].key) ensures Stored(e, t, t.files[id]) { assert Stored(e, s, s.files[id]); }
  }

  lemma KeyKept(e: Env, s: State, t: State, x: Writer)
    requires KeyOk(e, s, x) && (OwnsKey(x.pc) ==> SameAt(s, t, x.key))
    ensures KeyOk(e, t, x)
  {
  }

  // Only w moved, and only the key it owns was touched.
  lemma OthersKept(e: Env, s: State, t: State, w: nat, k: string)
    requires KeysOk(e, s) && w in t.writers && t.writers == s.writers[w := t.writers[w]]
    requires forall j :: j != k ==> SameAt(s, t, j)
    requires forall v :: v in s.writers && v != w && OwnsKey(s.writers[v].pc) ==> s.writers[v].key != k
    requires KeyOk(e, t, t.writers[w])
    ensures KeysOk(e, t)
  {
    forall v | v in t.writers ensures KeyOk(e, t, t.writers[v]) {
      if v != w {
        assert KeyOk(e, s, s.writers[v]);
        KeyKept(e, s, t, s.writers[v]);
      }
    }
  }

  // Dead keys stay dead as long as nothing new claims, uploads or commits them.
  lemma SweepsKept(e: Env, s: State, t: State)
    requires SweepsOk(e, s) && t.gcs == s.gcs && t.clock >= s.clock && s.used <= t.used
    requires forall k :: Dead(s, k) ==> Dead(t, k)
    requires forall k :: Dead(s, k) && k in t.s3 ==> k in s.s3
    ensures SweepsOk(e, t)
  {
    forall g | g in t.gcs ensures SweepOk(e, t, t.gcs[g]) { assert SweepOk(e, s, s.gcs[g]); }
  }
}
