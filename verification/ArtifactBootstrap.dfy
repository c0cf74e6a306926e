/** Bootstrap of declared artifacts (cloud_offload/artifact_bootstrap.py): all sources are
    checked and staged, then published with one receipt, or nothing is left behind. */
module ArtifactBootstrap {
  import opened Prelude

  type Digest = string

  datatype Declared = Declared(digest: Digest, size: Option<nat>, roles: seq<string>, plans: seq<string>)

  datatype Imported = Imported(digest: Digest, size: nat, roles: seq<string>, alreadyPresent: bool, plans: seq<string>)

  datatype Item = Item(digest: Digest, declared: Option<nat>, stored: int, roles: seq<string>, plans: seq<string>)

  datatype Doc = Doc(release: string, config: string, items: seq<Item>)

  datatype ReceiptFile = NoFile | Unreadable | Readable(doc: Doc)

  datatype Failure =
    | NothingDeclared | SourceMissing | TooLarge | SourceMismatch | SizeMismatch | ReceiptUnreadable | ReceiptMismatch
    | ReceiptMissing | DestinationMissing | DestinationMismatch | CopyFailed | StagingFailed | PublicationFailed

  /** What becomes of a file that is copied or uploaded: all its bytes arrive, or something else
      or nothing does, and the call may raise. */
  datatype Transfer = Exact | Inexact(written: Option<string>, raises: bool)

  /** What becomes of the receipt: a call may raise although the file was replaced. */
  datatype Replacement = Replaced | NotReplaced | ReplacedButRaised

  /** What becomes of the copies and uploads, by declaration, and of the receipt. */
  datatype Outcomes = Outcomes(copies: nat -> Transfer, uploads: nat -> Transfer, receipt: Replacement)

  /******* Receipts *******/

  predicate AllIn(declarations: seq<Declared>, sizes: map<Digest, nat>) {
    forall i | 0 <= i < |declarations| :: declarations[i].digest in sizes
  }

  /** `_receipt_payload` */
  function Payload(declarations: seq<Declared>, release: string, config: string, sizes: map<Digest, nat>): Doc
    requires AllIn(declarations, sizes)
  {
    Doc(release, config,
        seq(|declarations|, i requires 0 <= i < |declarations| =>
          var d := declarations[i]; Item(d.digest, d.size, sizes[d.digest], d.roles, d.plans)))
  }

  /** The file of a digest has it, and the size. */
  predicate IsStored(files: map<Digest, string>, hash: string -> Digest, d: Digest, size: int) {
    d in files && hash(files[d]) == d && |files[d]| == size
  }

  /** What `verify_bootstrap_receipt` accepts: a receipt for exactly these declarations and
      digests, whose files are all there. */
  predicate Accepts(files: map<Digest, string>, receipt: ReceiptFile, hash: string -> Digest,
                    declarations: seq<Declared>, release: string, config: string)
  {
    && receipt.Readable? && declarations != [] && |receipt.doc.items| == |declarations|
    && receipt.doc.release == release && receipt.doc.config == config
    && forall i | 0 <= i < |declarations| ::
         var d, item := declarations[i], receipt.doc.items[i];
         && item == Item(d.digest, d.size, item.stored, d.roles, d.plans)
         && IsStored(files, hash, d.digest, item.stored)
  }

  function Sizes(files: map<Digest, string>): map<Digest, nat> {
    map d | d in files :: |files[d]|
  }

  /** A published payload is accepted for the same declarations and digests, and no other
      receipt is. */
  lemma {:induction false} AcceptedIsThePayload(files: map<Digest, string>, receipt: ReceiptFile,
                        hash: string -> Digest,
                                               declarations: seq<Declared>, release: string, config: string)
    ensures Accepts(files, receipt, hash, declarations, release, config) <==>
            && declarations != []
            && (forall i | 0 <= i < |declarations| ::
                  var d := declarations[i].digest; d in files && hash(files[d]) == d)
            && receipt == Readable(Payload(declarations, release, config, Sizes(files)))
  {
    if Accepts(files, receipt, hash, declarations, release, config) {
      var p := Payload(declarations, release, config, Sizes(files));
      forall i | 0 <= i < |declarations| ensures receipt.doc.items[i] == p.items[i] {
        assert IsStored(files, hash, declarations[i].digest, receipt.doc.items[i].stored);
      }
      assert receipt.doc.items == p.items;
    }
  }

  /** Of the first `n` declarations, each that was present (or each that was not) is reported as
      such. */
  ghost predicate Reports(records: seq<Imported>, declarations: seq<Declared>, n: nat, present: set<Digest>, were: bool)
    requires n <= |declarations|
  {
    forall i | 0 <= i < n && (declarations[i].digest in present <==> were) ::
      exists k :: 0 <= k < |records| && records[k].digest == declarations[i].digest && records[k].alreadyPresent == were
  }

  lemma MoreRecords(records: seq<Imported>, record: Imported, declarations: seq<Declared>, n: nat, present: set<Digest>,
                    were: bool)
    requires n <= |declarations| && Reports(records, declarations, n, present, were)
    ensures Reports(records + [record], declarations, n, present, were)
  {
    forall i | 0 <= i < n && (declarations[i].digest in present <==> were)
      ensures exists k :: 0 <= k < |records + [record]| && (records + [record])[k].digest == declarations[i].digest
                          && (records + [record])[k].alreadyPresent == were
    {
      var k :| 0 <= k < |records| && records[k].digest == declarations[i].digest && records[k].alreadyPresent == were;
      assert (records + [record])[k] == records[k];
    }
  }

  lemma OneMoreRecord(records: seq<Imported>, record: Imported, declarations: seq<Declared>, n: nat,
                      present: set<Digest>, were: bool)
    requires n < |declarations| && Reports(records, declarations, n, present, were)
    requires record.digest == declarations[n].digest && record.alreadyPresent == were
    ensures Reports(records + [record], declarations, n + 1, present, were)
  {
    MoreRecords(records, record, declarations, n, present, were);
    assert (records + [record])[|records|] == record;
  }

  lemma NoneYet(records: seq<Imported>, declarations: seq<Declared>, present: set<Digest>, were: bool)
    ensures Reports(records, declarations, 0, present, were)
  {
  }

  lemma OtherRecord(records: seq<Imported>, declarations: seq<Declared>, n: nat, present: set<Digest>, were: bool)
    requires n < |declarations| && Reports(records, declarations, n, present, were)
    requires !(declarations[n].digest in present <==> were)
    ensures Reports(records, declarations, n + 1, present, were)
  {
  }

  /** A repeated digest was reported before. */
  lemma OldRecord(records: seq<Imported>, declarations: seq<Declared>, n: nat, present: set<Digest>)
    requires n < |declarations| && Reports(records, declarations, n, present, false)
    requires declarations[n].digest !in present ==>
               exists k :: 0 <= k < |records| && records[k].digest == declarations[n].digest && !records[k].alreadyPresent
    ensures Reports(records, declarations, n + 1, present, false)
  {
  }

  /** Every record is that of a declaration: its digest, roles and plans, the size of its source
      and whether it was there. */
  ghost predicate Recall(records: seq<Imported>, source: map<Digest, string>, declarations: seq<Declared>,
                         present: set<Digest>)
  {
    forall k | 0 <= k < |records| ::
      exists i :: 0 <= i < |declarations| && declarations[i].digest in source && IsRecordOf(records[k], source, declarations[i], present)
  }

  predicate IsRecordOf(record: Imported, source: map<Digest, string>, d: Declared, present: set<Digest>)
    requires d.digest in source
  {
    record == Imported(d.digest, |source[d.digest]|, d.roles, d.digest in present, d.plans)
  }

  lemma NothingRecalled(source: map<Digest, string>, declarations: seq<Declared>, present: set<Digest>)
    ensures Recall([], source, declarations, present)
  {
  }

  lemma OneMoreRecalled(records: seq<Imported>, record: Imported, source: map<Digest, string>,
                        declarations: seq<Declared>, present: set<Digest>, n: nat)
    requires Recall(records, source, declarations, present) && n < |declarations|
    requires declarations[n].digest in source && IsRecordOf(record, source, declarations[n], present)
    ensures Recall(records + [record], source, declarations, present)
  {
    hide IsRecordOf;
    forall k | 0 <= k < |records + [record]|
      ensures exists i :: 0 <= i < |declarations| && declarations[i].digest in source
                          && IsRecordOf((records + [record])[k], source, declarations[i], present)
    {
      if k < |records| {
        assert (records + [record])[k] == records[k];
      }
    }
  }

  /** What was not there is recorded once. */
  ghost predicate RecordOnce(records: seq<Imported>) {
    forall j, k | 0 <= j < k < |records| && !records[j].alreadyPresent && !records[k].alreadyPresent ::
      records[j].digest != records[k].digest
  }

  lemma OthersAreStored(files: map<Digest, string>, files': map<Digest, string>, hash: string -> Digest, d: Digest)
    requires d !in files && files' - {d} == files
    ensures forall e, size | IsStored(files, hash, e, size) :: IsStored(files', hash, e, size)
    ensures forall e | e != d :: e in files <==> e in files'
    ensures forall e <- files :: e in files'
  {
    forall e | e in files ensures e in files' && files'[e] == files[e] {
      assert e in files' - {d} && (files' - {d})[e] == files[e];
    }
    forall e | e in files' && e != d ensures e in files {
      assert e in files' - {d};
    }
  }

  lemma SamePayload(declarations: seq<Declared>, release: string, config: string, sizes: map<Digest, nat>,
                    sizes': map<Digest, nat>)
    requires AllIn(declarations, sizes) && AllIn(declarations, sizes')
    requires forall d <- sizes :: d in sizes' && sizes'[d] == sizes[d]
    ensures Payload(declarations, release, config, sizes) == Payload(declarations, release, config, sizes')
  {
  }

  class Bootstrap {
    /** The destination's artifacts, by digest, and its receipt. */
    var files: map<Digest, string>
    var receipt: ReceiptFile
    const hash: string -> Digest
    const limit: nat

    constructor (files: map<Digest, string>, receipt: ReceiptFile, hash: string -> Digest, limit: nat)
      ensures this.files == files && this.receipt == receipt && this.hash == hash && this.limit == limit
    {
      this.files, this.receipt, this.hash, this.limit := files, receipt, hash, limit;
    }

    /** What is wrong with the source of a declaration. */
    predicate IsSourceFault(failure: Failure, source: map<Digest, string>, d: Declared) {
      match failure
      case SourceMissing => d.digest !in source
      case TooLarge => d.digest in source && |source[d.digest]| > limit
      case SourceMismatch => d.digest in source && |source[d.digest]| <= limit && hash(source[d.digest]) != d.digest
      case SizeMismatch =>
        && d.digest in source && |source[d.digest]| <= limit && hash(source[d.digest]) == d.digest
        && d.size.Some? && |source[d.digest]| != d.size.value
      case _ => false
    }

    /** It is what is wrong with the first source that something is wrong with. */
    ghost predicate BlamesSource(failure: Failure, source: map<Digest, string>, declarations: seq<Declared>) {
      exists i :: 0 <= i < |declarations| && IsSourceFault(failure, source, declarations[i])
                  && forall k | 0 <= k < i :: IsSource(source, declarations[k])
    }

    /** Checks every source, in order. */
    method CheckSources(source: map<Digest, string>, declarations: seq<Declared>)
      returns (r: Result<map<Digest, nat>, Failure>)
      ensures r.Ok? <==> forall i | 0 <= i < |declarations| :: IsSource(source, declarations[i])
      ensures r.Err? ==> r.error in {SourceMissing, TooLarge, SourceMismatch, SizeMismatch}
      ensures r.Err? ==> BlamesSource(r.error, source, declarations)
      ensures r.Ok? ==> forall d <- r.value :: d in source && r.value[d] == |source[d]|
      ensures r.Ok? ==> AllIn(declarations, r.value)
    {
      var sizes: map<Digest, nat> := map[];
      for i := 0 to |declarations|
        invariant forall k | 0 <= k < i :: IsSource(source, declarations[k]) && declarations[k].digest in sizes
        invariant forall d <- sizes :: d in source && sizes[d] == |source[d]|
      {
        var d := declarations[i];
        if d.digest !in source {
          return Err(SourceMissing);
        }
        if |source[d.digest]| > limit {
          return Err(TooLarge);
        }
        if hash(source[d.digest]) != d.digest {
          return Err(SourceMismatch);
        }
        if d.size.Some? && |source[d.digest]| != d.size.value {
          return Err(SizeMismatch);
        }
        sizes := sizes[d.digest := |source[d.digest]|];
      }
      r := Ok(sizes);
    }

    predicate IsSource(source: map<Digest, string>, d: Declared) {
      && d.digest in source && |source[d.digest]| <= limit && hash(source[d.digest]) == d.digest
      && (d.size.Some? ==> |source[d.digest]| == d.size.value)
    }

    /** The file of a declaration is there, with the digest and the length of its source. */
    predicate IsImported(files: map<Digest, string>, source: map<Digest, string>, d: Declared) {
      && d.digest in source && hash(source[d.digest]) == d.digest && |source[d.digest]| <= limit
      && (d.size.Some? ==> d.size.value == |source[d.digest]|)
      && d.digest in files && hash(files[d.digest]) == d.digest && |files[d.digest]| == |source[d.digest]|
    }

    lemma SourcesAndFilesAre(files: map<Digest, string>, source: map<Digest, string>, declarations: seq<Declared>)
      requires forall i | 0 <= i < |declarations| ::
                 && IsSource(source, declarations[i])
                 && IsStored(files, hash, declarations[i].digest, |source[declarations[i].digest]|)
      ensures forall i | 0 <= i < |declarations| :: IsImported(files, source, declarations[i])
    {
    }

    predicate IsIntact(text: string, d: Digest, size: int) {
      hash(text) == d && |text| == size
    }

    /** A transfer that leaves the declared bytes in place. */
    predicate IsGood(t: Transfer, d: Digest, size: int) {
      t.Exact? || (!t.raises && t.written.Some? && IsIntact(t.written.value, d, size))
    }

    /** What is there already is right, and anything else is copied well. */
    predicate IsStaged(files: map<Digest, string>, source: map<Digest, string>, d: Digest, copied: Transfer)
      requires d in source
    {
      if d in files then IsStored(files, hash, d, |source[d]|) else IsGood(copied, d, |source[d]|)
    }

    /** The upload of the declaration is good, if there is one: only the first of several
        declarations of a digest is uploaded. */
    predicate IsPublished(files: map<Digest, string>, source: map<Digest, string>, declarations: seq<Declared>,
                          uploads: nat -> Transfer, i: nat)
      requires i < |declarations| && declarations[i].digest in source
    {
      var d := declarations[i].digest;
      d in files || (exists k :: 0 <= k < i && declarations[k].digest == d) || IsGood(uploads(i), d, |source[d]|)
    }

    /** Everything goes well before the receipt is written. */
    ghost predicate ReachesReceipt(files: map<Digest, string>, receipt: ReceiptFile, source: map<Digest, string>,
                                   declarations: seq<Declared>, release: string, config: string, io: Outcomes)
    {
      && declarations != [] && (forall i | 0 <= i < |declarations| :: IsSource(source, declarations[i]))
      && receipt in {NoFile, Readable(Payload(declarations, release, config, Sizes(source)))}
      && (forall i | 0 <= i < |declarations| :: IsStaged(files, source, declarations[i].digest, io.copies(i)))
      && (forall i | 0 <= i < |declarations| :: IsPublished(files, source, declarations, io.uploads, i))
    }

    /** Publishes all declared artifacts and the receipt, or leaves the destination as it was
        found.  The one exception is a first receipt whose replacement raises after it took
        effect: the files are taken back, and the receipt stays. */
    method ImportDeclaredArtifacts(source: map<Digest, string>, declarations: seq<Declared>, release: string,
                          config: string,
                                   io: Outcomes)
      returns (r: Result<seq<Imported>, Failure>)
      modifies this
      ensures r.Ok? <==>
                ReachesReceipt(old(files), old(receipt), source, declarations, release, config, io) && io.receipt == Replaced
      ensures r == Err(NothingDeclared) <==> declarations == []
      ensures r.Err? && declarations != [] && !(forall i | 0 <= i < |declarations| :: IsSource(source, declarations[i])) ==>
                BlamesSource(r.error, source, declarations)
      ensures declarations != [] && (forall i | 0 <= i < |declarations| :: IsSource(source, declarations[i])) ==>
                && (r == Err(ReceiptUnreadable) <==> old(receipt).Unreadable?)
                && (r == Err(ReceiptMismatch) <==>
                    old(receipt).Readable? && old(receipt).doc != Payload(declarations, release, config, Sizes(source)))
      ensures ReachesReceipt(old(files), old(receipt), source, declarations, release, config, io) && io.receipt != Replaced ==>
                r == Err(PublicationFailed)
      ensures r.Err? ==> files == old(files)
      ensures r.Err? ==>
                (receipt != old(receipt) <==>
                 && ReachesReceipt(old(files), old(receipt), source, declarations, release, config, io)
                 && io.receipt == ReplacedButRaised && old(receipt) == NoFile)
      ensures receipt != old(receipt) ==>
                && (forall i | 0 <= i < |declarations| :: declarations[i].digest in source)
                && receipt == Readable(Payload(declarations, release, config, Sizes(source)))
      ensures r.Ok? ==> forall i | 0 <= i < |declarations| :: IsImported(files, source, declarations[i])
      ensures r.Ok? ==> Accepts(files, receipt, hash, declarations, release, config)
      ensures r.Ok? ==> forall d <- old(files) :: d in files && files[d] == old(files)[d]
      ensures r.Ok? ==> forall d <- files | d !in old(files) :: exists i :: 0 <= i < |declarations| && declarations[i].digest == d
      ensures r.Ok? ==> Reports(r.value, declarations, |declarations|, old(files).Keys, true)
      ensures r.Ok? ==> Reports(r.value, declarations, |declarations|, old(files).Keys, false)
      ensures r.Ok? ==> Recall(r.value, source, declarations, old(files).Keys) && RecordOnce(r.value)
    {
      hide IsImported, BlamesSource, IsSource, IsStaged, IsPublished, Reports, Recall, RecordOnce, IsStored, Accepts;
      if declarations == [] {
        return Err(NothingDeclared);
      }
      var checked := CheckSources(source, declarations);
      if checked.Err? {
        return Err(checked.error);
      }
      var sizes := checked.value;
      var payload := Payload(declarations, release, config, sizes);
      SamePayload(declarations, release, config, sizes, Sizes(source));
      hide Payload;
      if receipt.Unreadable? {
        return Err(ReceiptUnreadable);
      }
      if receipt.Readable? && receipt.doc != payload {
        return Err(ReceiptMismatch);
      }
      var staged := Stage(source, declarations, sizes, io.copies);
      if staged.Err? {
        return Err(staged.error);
      }
      var published, targets := Publish(source, staged.value.0, staged.value.1, declarations, io.uploads);
      if published.Err? {
        files := files - targets;
        return Err(published.error);
      }
      if io.receipt != NotReplaced {
        receipt := Readable(payload);
      }
      if io.receipt != Replaced {
        files := files - targets;
        return Err(PublicationFailed);
      }
      PublishedIsAccepted(files, hash, declarations, release, config, sizes);
      SourcesAndFilesAre(files, source, declarations);
      r := Ok(published.value);
    }

    /** What is wrong with what is there for a digest, or with its copy. */
    predicate IsStagingFault(failure: Failure, files: map<Digest, string>, d: Digest, copied: Transfer) {
      if d in files then failure == DestinationMismatch
      else copied.Inexact? && failure == if copied.raises then CopyFailed else StagingFailed
    }

    /** Verifies what is there already and copies the rest aside. */
    method Stage(source: map<Digest, string>, declarations: seq<Declared>, sizes: map<Digest, nat>,
                 copies: nat -> Transfer)
      returns (r: Result<(map<Digest, string>, seq<Imported>), Failure>)
      requires AllIn(declarations, sizes) && forall i | 0 <= i < |declarations| :: IsSource(source, declarations[i])
      requires forall d <- sizes :: d in source && sizes[d] == |source[d]|
      ensures r.Ok? <==> forall i | 0 <= i < |declarations| :: IsStaged(files, source, declarations[i].digest, copies(i))
      ensures r.Ok? ==> forall i | 0 <= i < |declarations| ::
                IsStored(if declarations[i].digest in files then files else r.value.0,
                         hash, declarations[i].digest, sizes[declarations[i].digest])
      ensures r.Ok? ==> Reports(r.value.1, declarations, |declarations|, files.Keys, true)
      ensures r.Ok? ==> Recall(r.value.1, source, declarations, files.Keys) && !exists c <- r.value.1 :: !c.alreadyPresent
      ensures r.Err? ==> exists i :: 0 <= i < |declarations| && IsStagingFault(r.error, files, declarations[i].digest, copies(i))
    {
      hide Reports, Recall;
      NothingRecalled(source, declarations, files.Keys);
      var staged: map<Digest, string> := map[];
      var records: seq<Imported> := [];
      NoneYet(records, declarations, files.Keys, true);
      for i := 0 to |declarations|
        invariant forall k | 0 <= k < i :: IsStaged(files, source, declarations[k].digest, copies(k))
        invariant forall k | 0 <= k < i ::
                    IsStored(if declarations[k].digest in files then files else staged,
                             hash, declarations[k].digest, sizes[declarations[k].digest])
        invariant Reports(records, declarations, i, files.Keys, true)
        invariant Recall(records, source, declarations, files.Keys) && !exists c <- records :: !c.alreadyPresent
      {
        var d := declarations[i].digest;
        assert IsSource(source, declarations[i]);
        if d in files {
          if !IsStored(files, hash, d, sizes[d]) {
            assert !IsStaged(files, source, d, copies(i));
            return Err(DestinationMismatch);
          }
          var record := Imported(d, sizes[d], declarations[i].roles, true, declarations[i].plans);
          OneMoreRecord(records, record, declarations, i, files.Keys, true);
          OneMoreRecalled(records, record, source, declarations, files.Keys, i);
          records := records + [record];
          continue;
        }
        var copied := copies(i);
        if copied.Inexact? && copied.raises {
          assert !IsStaged(files, source, d, copies(i));
          return Err(CopyFailed);
        }
        var text := if copied.Exact? then Some(source[d]) else copied.written;
        if text.None? || !IsIntact(text.value, d, sizes[d]) {
          assert !IsStaged(files, source, d, copies(i));
          return Err(StagingFailed);
        }
        OtherRecord(records, declarations, i, files.Keys, true);
        staged := staged[d := text.value];
      }
      r := Ok((staged, records));
    }

    predicate IsUploadFault(failure: Failure, upload: Transfer) {
      upload.Inexact? && failure == if upload.raises then PublicationFailed else DestinationMismatch
    }

    /** Uploads one file and looks at what arrived. */
    method Upload(d: Digest, size: nat, bytes: string, upload: Transfer) returns (failure: Option<Failure>)
      requires d !in files && IsIntact(bytes, d, size)
      modifies this`files
      ensures failure.None? <==> IsGood(upload, d, size)
      ensures failure.Some? ==> IsUploadFault(failure.value, upload)
      ensures failure.None? ==> IsStored(files, hash, d, size)
      ensures files - {d} == old(files)
    {
      var written := if upload.Exact? then Some(bytes) else upload.written;
      if written.Some? {
        files := files[d := written.value];
      }
      if upload.Inexact? && upload.raises {
        return Some(PublicationFailed);
      }
      failure := if IsStored(files, hash, d, size) then None else Some(DestinationMismatch);
    }

    /** Only `targets` were added, each of them declared, and taking them away restores the
        files. */
    ghost predicate CanBeTakenBack(before: map<Digest, string>, files: map<Digest, string>, targets: set<Digest>,
                                   declarations: seq<Declared>) {
      && targets !! before.Keys && files - targets == before
      && forall d <- targets :: exists i :: 0 <= i < |declarations| && declarations[i].digest == d
    }

    /** The first `n` declarations are published. */
    ghost predicate Landed(before: map<Digest, string>, files: map<Digest, string>, targets: set<Digest>,
                           source: map<Digest, string>, declarations: seq<Declared>, uploads: nat -> Transfer, n: nat)
      requires n <= |declarations| && forall i | 0 <= i < |declarations| :: declarations[i].digest in source
    {
      && CanBeTakenBack(before, files, targets, declarations) && files.Keys == before.Keys + targets
      && (forall d <- targets :: exists k :: 0 <= k < n && declarations[k].digest == d)
      && (forall k | 0 <= k < n :: IsStored(files, hash, declarations[k].digest, |source[declarations[k].digest]|))
      && (forall k | 0 <= k < n :: IsPublished(before, source, declarations, uploads, k))
    }

    lemma NothingLanded(files: map<Digest, string>, source: map<Digest, string>, declarations: seq<Declared>,
                        uploads: nat -> Transfer)
      requires forall i | 0 <= i < |declarations| :: declarations[i].digest in source
      ensures Landed(files, files, {}, source, declarations, uploads, 0)
    {
      assert files - {} == files;
    }

    lemma StoredIsIntact(files: map<Digest, string>, d: Digest, size: int)
      requires IsStored(files, hash, d, size)
      ensures d in files && IsIntact(files[d], d, size)
    {
    }

    lemma LandedSoFar(before: map<Digest, string>, files: map<Digest, string>, targets: set<Digest>,
                      source: map<Digest, string>, declarations: seq<Declared>, uploads: nat -> Transfer, n: nat)
      requires n <= |declarations| && forall i | 0 <= i < |declarations| :: declarations[i].digest in source
      requires Landed(before, files, targets, source, declarations, uploads, n)
      ensures files.Keys == before.Keys + targets && CanBeTakenBack(before, files, targets, declarations)
      ensures forall k | 0 <= k < n ::
                && IsStored(files, hash, declarations[k].digest, |source[declarations[k].digest]|)
                && IsPublished(before, source, declarations, uploads, k)
    {
      hide IsPublished, IsStored, CanBeTakenBack;
    }

    lemma LandedAlready(before: map<Digest, string>, files: map<Digest, string>, targets: set<Digest>,
                        source: map<Digest, string>, declarations: seq<Declared>, uploads: nat -> Transfer, n: nat)
      requires n < |declarations| && forall i | 0 <= i < |declarations| :: declarations[i].digest in source
      requires Landed(before, files, targets, source, declarations, uploads, n)
      requires var d := declarations[n].digest; d in files && (d in before ==> IsStored(before, hash, d, |source[d]|))
      ensures Landed(before, files, targets, source, declarations, uploads, n + 1)
    {
      hide IsGood;
      var d := declarations[n].digest;
      if d in before {
        assert d in files - targets && (files - targets)[d] == files[d];
      }
    }

    lemma LandedNext(before: map<Digest, string>, files: map<Digest, string>, files': map<Digest, string>,
                     targets: set<Digest>, source: map<Digest, string>, declarations: seq<Declared>,
                     uploads: nat -> Transfer, n: nat)
      requires n < |declarations| && forall i | 0 <= i < |declarations| :: declarations[i].digest in source
      requires Landed(before, files, targets, source, declarations, uploads, n)
      requires var d := declarations[n].digest; d !in files && files' - {d} == files
      ensures var d := declarations[n].digest;
              && CanBeTakenBack(before, files', targets + {d}, declarations)
              && (IsPublished(before, source, declarations, uploads, n) <==> IsGood(uploads(n), d, |source[d]|))
              && (IsStored(files', hash, d, |source[d]|) && IsGood(uploads(n), d, |source[d]|) ==>
                    Landed(before, files', targets + {d}, source, declarations, uploads, n + 1))
    {
      hide IsGood;
      var d := declarations[n].digest;
      OthersAreStored(files, files', hash, d);
      assert files' - (targets + {d}) == files - targets;
      hide IsStored;
    }

    /** Each of these, and nothing else, has one record that says that it was not there. */
    ghost predicate AreNew(records: seq<Imported>, targets: set<Digest>) {
      && (forall d <- targets :: exists k :: 0 <= k < |records| && records[k].digest == d && !records[k].alreadyPresent)
      && (forall k | 0 <= k < |records| && !records[k].alreadyPresent :: records[k].digest in targets)
      && RecordOnce(records)
    }

    lemma OneMoreNew(records: seq<Imported>, targets: set<Digest>, record: Imported)
      requires AreNew(records, targets) && !record.alreadyPresent && record.digest !in targets
      ensures AreNew(records + [record], targets + {record.digest})
    {
      forall d <- targets + {record.digest}
        ensures exists k :: 0 <= k < |records + [record]| && (records + [record])[k].digest == d
                            && !(records + [record])[k].alreadyPresent
      {
        if d in targets {
          var k :| 0 <= k < |records| && records[k].digest == d && !records[k].alreadyPresent;
          assert (records + [record])[k] == records[k];
        } else {
          assert (records + [record])[|records|] == record;
        }
      }
    }

    /** The records of what was there, and of the first `n` declarations of what was not. */
    ghost predicate Recorded(records: seq<Imported>, source: map<Digest, string>, declarations: seq<Declared>, n: nat,
                             present: set<Digest>, targets: set<Digest>)
      requires n <= |declarations|
    {
      && Recall(records, source, declarations, present)
      && Reports(records, declarations, |declarations|, present, true)
      && Reports(records, declarations, n, present, false) && AreNew(records, targets)
    }

    lemma AllRecorded(records: seq<Imported>, source: map<Digest, string>, declarations: seq<Declared>,
                      present: set<Digest>, targets: set<Digest>)
      requires Recorded(records, source, declarations, |declarations|, present, targets)
      ensures Recall(records, source, declarations, present) && RecordOnce(records)
      ensures Reports(records, declarations, |declarations|, present, true)
      ensures Reports(records, declarations, |declarations|, present, false)
    {
      hide Reports;
    }

    lemma NothingRecorded(records: seq<Imported>, source: map<Digest, string>, declarations: seq<Declared>,
                          present: set<Digest>)
      requires Reports(records, declarations, |declarations|, present, true)
      requires Recall(records, source, declarations, present) && !exists c <- records :: !c.alreadyPresent
      ensures Recorded(records, source, declarations, 0, present, {})
    {
      NoneYet(records, declarations, present, false);
      hide Reports, Recall;
      assert forall k | 0 <= k < |records| :: records[k] in records && records[k].alreadyPresent;
    }

    lemma AlreadyRecorded(records: seq<Imported>, source: map<Digest, string>, declarations: seq<Declared>, n: nat,
                          present: set<Digest>, targets: set<Digest>)
      requires n < |declarations| && Recorded(records, source, declarations, n, present, targets)
      requires declarations[n].digest in present + targets
      ensures Recorded(records, source, declarations, n + 1, present, targets)
    {
      hide Reports, Recall, RecordOnce;
      OldRecord(records, declarations, n, present);
    }

    lemma OneMoreRecorded(records: seq<Imported>, record: Imported, source: map<Digest, string>,
                          declarations: seq<Declared>, n: nat, present: set<Digest>, targets: set<Digest>)
      requires n < |declarations| && Recorded(records, source, declarations, n, present, targets)
      requires record.digest == declarations[n].digest && !record.alreadyPresent && record.digest !in present + targets
      requires record.digest in source && IsRecordOf(record, source, declarations[n], present)
      ensures Recorded(records + [record], source, declarations, n + 1, present, targets + {record.digest})
    {
      hide Reports, AreNew, Recall;
      OneMoreRecalled(records, record, source, declarations, present, n);
      MoreRecords(records, record, declarations, |declarations|, present, true);
      OneMoreRecord(records, record, declarations, n, present, false);
      OneMoreNew(records, targets, record);
    }

    /** Uploads the file of one declaration. */
    method PublishOne(source: map<Digest, string>, staged: map<Digest, string>, declarations: seq<Declared>,
                      uploads: nat -> Transfer, i: nat, records: seq<Imported>, ghost targets: set<Digest>,
                      ghost before: map<Digest, string>)
      returns (failure: Option<Failure>, records': seq<Imported>)
      requires i < |declarations| && forall k | 0 <= k < |declarations| :: declarations[k].digest in source
      requires Landed(before, files, targets, source, declarations, uploads, i)
      requires Recorded(records, source, declarations, i, before.Keys, targets)
      requires var d := declarations[i].digest;
               d !in files && d !in before && d !in targets && IsStored(staged, hash, d, |source[d]|)
      modifies this`files
      ensures failure.None? <==> IsPublished(before, source, declarations, uploads, i)
      ensures failure.Some? ==> IsUploadFault(failure.value, uploads(i))
      ensures CanBeTakenBack(before, files, targets + {declarations[i].digest}, declarations)
      ensures failure.None? ==>
                && Landed(before, files, targets + {declarations[i].digest}, source, declarations, uploads, i + 1)
                && Recorded(records', source, declarations, i + 1, before.Keys, targets + {declarations[i].digest})
    {
      var d := declarations[i];
      assert IsRecordOf(Imported(d.digest, |source[d.digest]|, d.roles, false, d.plans), source, d, before.Keys);
      hide Reports, Recall, RecordOnce, IsGood, IsPublished, Landed, Recorded, CanBeTakenBack, IsStored, IsIntact;
      hide IsUploadFault, IsRecordOf;
      records' := records;
      StoredIsIntact(staged, d.digest, |source[d.digest]|);
      failure := Upload(d.digest, |source[d.digest]|, staged[d.digest], uploads(i));
      LandedNext(before, old(files), files, targets, source, declarations, uploads, i);
      if failure.None? {
        var record := Imported(d.digest, |source[d.digest]|, d.roles, false, d.plans);
        OneMoreRecorded(records, record, source, declarations, i, before.Keys, targets);
        records' := records + [record];
      }
    }

    /** Publishes the staged files; `targets` are those that were not there before, whether or
        not their upload succeeded. */
    method Publish(source: map<Digest, string>, staged: map<Digest, string>, present: seq<Imported>,
                   declarations: seq<Declared>, uploads: nat -> Transfer)
      returns (r: Result<seq<Imported>, Failure>, targets: set<Digest>)
      requires forall i | 0 <= i < |declarations| :: declarations[i].digest in source
      requires forall i | 0 <= i < |declarations| ::
                 IsStored(if declarations[i].digest in files then files else staged,
                          hash, declarations[i].digest, |source[declarations[i].digest]|)
      requires Reports(present, declarations, |declarations|, files.Keys, true)
      requires Recall(present, source, declarations, files.Keys) && !exists c <- present :: !c.alreadyPresent
      modifies this`files
      ensures r.Ok? <==> forall i | 0 <= i < |declarations| :: IsPublished(old(files), source, declarations, uploads, i)
      ensures r.Ok? ==> Reports(r.value, declarations, |declarations|, old(files).Keys, true)
      ensures r.Ok? ==> Reports(r.value, declarations, |declarations|, old(files).Keys, false)
      ensures r.Ok? ==> Recall(r.value, source, declarations, old(files).Keys) && RecordOnce(r.value)
      ensures r.Err? ==> exists i :: 0 <= i < |declarations| && declarations[i].digest !in old(files)
                                     && IsUploadFault(r.error, uploads(i))
      ensures CanBeTakenBack(old(files), files, targets, declarations)
      ensures r.Ok? ==> forall i | 0 <= i < |declarations| ::
                IsStored(files, hash, declarations[i].digest, |source[declarations[i].digest]|)
    {
      hide Reports, Recall, RecordOnce, IsGood, IsPublished, Landed, Recorded, CanBeTakenBack, IsStored, IsIntact, IsUploadFault;
      var records := present;
      targets := {};
      NothingLanded(files, source, declarations, uploads);
      NothingRecorded(present, source, declarations, files.Keys);
      for i := 0 to |declarations|
        invariant Landed(old(files), files, targets, source, declarations, uploads, i)
        invariant Recorded(records, source, declarations, i, old(files).Keys, targets)
      {
        LandedSoFar(old(files), files, targets, source, declarations, uploads, i);
        if declarations[i].digest in files {
          AlreadyRecorded(records, source, declarations, i, old(files).Keys, targets);
          LandedAlready(old(files), files, targets, source, declarations, uploads, i);
          continue;
        }
        var failure: Option<Failure>;
        failure, records := PublishOne(source, staged, declarations, uploads, i, records, targets, old(files));
        targets := targets + {declarations[i].digest};
        if failure.Some? {
          return Err(failure.value), targets;
        }
      }
      LandedSoFar(old(files), files, targets, source, declarations, uploads, |declarations|);
      AllRecorded(records, source, declarations, old(files).Keys, targets);
      r := Ok(records);
    }

    /** Accepts exactly the receipts that `Accepts` describes, and changes nothing. */
    method VerifyBootstrapReceipt(declarations: seq<Declared>, release: string, config: string)
      returns (r: Result<Doc, Failure>)
      ensures r.Ok? <==> Accepts(files, receipt, hash, declarations, release, config)
      ensures r.Ok? ==> receipt == Readable(r.value)
      ensures r == Err(ReceiptMissing) <==> receipt.NoFile?
      ensures r == Err(ReceiptUnreadable) <==> receipt.Unreadable?
      ensures r == Err(NothingDeclared) <==> receipt.Readable? && declarations == []
    {
      if receipt.NoFile? {
        return Err(ReceiptMissing);
      }
      if receipt.Unreadable? {
        return Err(ReceiptUnreadable);
      }
      var actual := receipt.doc;
      if declarations == [] {
        return Err(NothingDeclared);
      }
      if |actual.items| != |declarations| {
        return Err(ReceiptMismatch);
      }
      var measured: map<Digest, nat> := map[];
      for i := 0 to |declarations|
        invariant forall k | 0 <= k < i ::
                    && actual.items[k].digest == declarations[k].digest && actual.items[k].declared == declarations[k].size
                    && IsStored(files, hash, declarations[k].digest, actual.items[k].stored)
        invariant forall k | 0 <= k < i :: declarations[k].digest in measured
        invariant forall d <- measured :: d in files && measured[d] == |files[d]|
      {
        var d, item := declarations[i], actual.items[i];
        if item.digest != d.digest || item.declared != d.size || item.stored < 0 {
          return Err(ReceiptMismatch);
        }
        if item.digest !in files {
          return Err(DestinationMissing);
        }
        if !IsStored(files, hash, item.digest, item.stored) {
          return Err(DestinationMismatch);
        }
        measured := measured[d.digest := item.stored];
      }
      var expected := Payload(declarations, release, config, measured);
      if actual != expected {
        assert Accepts(files, receipt, hash, declarations, release, config) ==> actual == expected by {
          PayloadOfMeasured(files, receipt, hash, declarations, release, config, measured);
        }
        return Err(ReceiptMismatch);
      }
      r := Ok(actual);
    }
  }

  lemma PayloadOfMeasured(files: map<Digest, string>, receipt: ReceiptFile, hash: string -> Digest,
                        declarations: seq<Declared>,
                          release: string, config: string, measured: map<Digest, nat>)
    requires AllIn(declarations, measured) && forall d <- measured :: d in files && measured[d] == |files[d]|
    ensures Accepts(files, receipt, hash, declarations, release, config) ==>
              receipt == Readable(Payload(declarations, release, config, measured))
  {
    if Accepts(files, receipt, hash, declarations, release, config) {
      var p := Payload(declarations, release, config, measured);
      forall i | 0 <= i < |declarations| ensures receipt.doc.items[i] == p.items[i] {
        assert IsStored(files, hash, declarations[i].digest, receipt.doc.items[i].stored);
      }
      assert receipt.doc.items == p.items;
    }
  }

  lemma PublishedIsAccepted(files: map<Digest, string>, hash: string -> Digest, declarations: seq<Declared>,
                            release: string, config: string, sizes: map<Digest, nat>)
    requires declarations != [] && AllIn(declarations, sizes)
    requires forall i | 0 <= i < |declarations| ::
              IsStored(files, hash, declarations[i].digest, sizes[declarations[i].digest])
    ensures Accepts(files, Readable(Payload(declarations, release, config, sizes)), hash, declarations, release, config)
  {
  }

  /** Such an exception: the import fails and its receipt stays, without the file it lists; it
      is not accepted, and the next import succeeds. */
  method ReceiptWithoutFiles()
    returns (first: Result<seq<Imported>, Failure>, left: ReceiptFile, verified: Result<Doc, Failure>,
             again: Result<seq<Imported>, Failure>)
    ensures first.Err? && left.Readable? && verified.Err? && again.Ok?
  {
    var source := map["d" := "text"];
    var declarations := [Declared("d", None, [], [])];
    var bootstrap := new Bootstrap(map[], NoFile, _ => "d", 10);
    var io := Outcomes(_ => Exact, _ => Exact, ReplacedButRaised);
    assert bootstrap.IsSource(source, declarations[0]);
    assert bootstrap.ReachesReceipt(map[], NoFile, source, declarations, "release", "config", io);
    first := bootstrap.ImportDeclaredArtifacts(source, declarations, "release", "config", io);
    left := bootstrap.receipt;
    verified := bootstrap.VerifyBootstrapReceipt(declarations, "release", "config");
    again := bootstrap.ImportDeclaredArtifacts(source, declarations, "release", "config", io.(receipt := Replaced));
  }
}
