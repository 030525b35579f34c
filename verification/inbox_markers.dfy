/** The two durable per-file markers shared by both inbox variants
    (activities/onedrive_inbox.py:17-18, activities/local_inbox.py:8-9) and
    the audio-type test. A file is eligible for dispatch when neither marker
    reads back as set. */
module InboxMarkers {
  import opened Base
  import opened Text
  import opened Seqs
  import opened StateStore
  import opened Models

  const PendingPrefix := "voice_inbox_pending:"
  const DownloadedPrefix := "voice_inbox_downloaded:"

  function PendingKey(id: string): string {
    PendingPrefix + id
  }

  function DownloadedKey(id: string): string {
    DownloadedPrefix + id
  }

  /** A pending key and a downloaded key never collide, whatever the ids. */
  lemma MarkerKeysDistinct(a: string, b: string)
    ensures PendingKey(a) != DownloadedKey(b)
  {
    assert PendingKey(a)[12] == 'p';
    assert DownloadedKey(b)[12] == 'd';
  }

  lemma PendingKeyInjective(a: string, b: string)
    ensures PendingKey(a) == PendingKey(b) ==> a == b
  {
    if PendingKey(a) == PendingKey(b) {
      assert a == PendingKey(a)[|PendingPrefix|..];
      assert b == PendingKey(b)[|PendingPrefix|..];
    }
  }

  lemma DownloadedKeyInjective(a: string, b: string)
    ensures DownloadedKey(a) == DownloadedKey(b) ==> a == b
  {
    if DownloadedKey(a) == DownloadedKey(b) {
      assert a == DownloadedKey(a)[|DownloadedPrefix|..];
      assert b == DownloadedKey(b)[|DownloadedPrefix|..];
    }
  }

  /** `is_audio_file`: the lower-cased name ends in ".wav" or ".mp3". */
  predicate IsAudioName(name: string) {
    EndsWith(Lower(name), ".wav") || EndsWith(Lower(name), ".mp3")
  }

  predicate IsDownloaded(st: Store, id: string) {
    Get(st, DownloadedKey(id)).Some?
  }

  predicate IsPending(st: Store, id: string) {
    Get(st, PendingKey(id)).Some?
  }

  /** Either marker is set: the file has been dispatched at least once. */
  predicate Marked(st: Store, id: string) {
    IsDownloaded(st, id) || IsPending(st, id)
  }

  /** The per-file test of the remote listing filter. */
  predicate IsNewFile(st: Store, f: FileRef) {
    IsAudioName(f.name) && !Marked(st, f.id)
  }

  function NewFilePred(st: Store): FileRef -> bool {
    (f: FileRef) => IsNewFile(st, f)
  }

  /** The remote listing filter: audio files carrying neither marker, in
      provider order. */
  function NewFiles(st: Store, files: seq<FileRef>): (r: seq<FileRef>)
    ensures forall f :: f in r ==> f in files && IsAudioName(f.name) && !IsDownloaded(st, f.id) && !IsPending(st, f.id)
    ensures forall f :: f in files && IsAudioName(f.name) && !Marked(st, f.id) ==> f in r
    ensures IsSubsequence(r, files)
  {
    FilterIsSubsequence(NewFilePred(st), files);
    Filter(NewFilePred(st), files)
  }

  lemma NewFilesSnoc(st: Store, files: seq<FileRef>, f: FileRef)
    ensures NewFiles(st, files + [f]) == NewFiles(st, files) + (if IsNewFile(st, f) then [f] else [])
  {
    FilterSnoc(NewFilePred(st), files, f);
  }

  function UnmarkedPred(st: Store): FileRef -> bool {
    (f: FileRef) => !Marked(st, f.id)
  }

  /** The local listing filter: references carrying neither marker, in
      listing order (the audio test happened when the references were built). */
  function UnmarkedFiles(st: Store, refs: seq<FileRef>): (r: seq<FileRef>)
    ensures forall f :: f in r ==> f in refs && !IsDownloaded(st, f.id) && !IsPending(st, f.id)
    ensures forall f :: f in refs && !Marked(st, f.id) ==> f in r
    ensures IsSubsequence(r, refs)
  {
    FilterIsSubsequence(UnmarkedPred(st), refs);
    Filter(UnmarkedPred(st), refs)
  }

  /** Two stores carry the same markers for every file. */
  ghost predicate SameMarks(a: Store, b: Store) {
    forall id :: IsPending(a, id) == IsPending(b, id) && IsDownloaded(a, id) == IsDownloaded(b, id)
  }

  /** The listing filter reads nothing but the markers. */
  lemma NewFilesSameMarks(a: Store, b: Store, files: seq<FileRef>)
    requires SameMarks(a, b)
    ensures NewFiles(a, files) == NewFiles(b, files)
  {
    FilterAgree(NewFilePred(a), NewFilePred(b), files);
  }

  /** Setting the downloaded marker and clearing the pending marker, the last
      step of both the download and the local prepare activity. */
  function MarkDownloaded(st: Store, id: string): (r: Store)
    ensures Get(r, DownloadedKey(id)) == Some("1")
    ensures Get(r, PendingKey(id)) == None
    ensures forall k :: k != DownloadedKey(id) && k != PendingKey(id) ==> Get(r, k) == Get(st, k)
  {
    MarkerKeysDistinct(id, id);
    Delete(Set(st, DownloadedKey(id), "1"), PendingKey(id))
  }

  /** Marking one file downloaded in two stores that carry the same markers
      leaves them carrying the same markers. */
  lemma MarkDownloadedSameMarks(a: Store, b: Store, x: string)
    requires SameMarks(a, b)
    ensures SameMarks(MarkDownloaded(a, x), MarkDownloaded(b, x))
  {
    forall id
      ensures IsPending(MarkDownloaded(a, x), id) == IsPending(MarkDownloaded(b, x), id)
      ensures IsDownloaded(MarkDownloaded(a, x), id) == IsDownloaded(MarkDownloaded(b, x), id)
    {
      assert IsPending(a, id) == IsPending(b, id) && IsDownloaded(a, id) == IsDownloaded(b, id);
      MarkerKeysDistinct(id, x);
      MarkerKeysDistinct(x, id);
      PendingKeyInjective(id, x);
      DownloadedKeyInjective(id, x);
    }
  }
}
