/**
 * Duplicate-photo search: the Hamming distance between two perceptual-hash
 * hex strings, and the first-match search over the stored initial photos.
 * Computing a perceptual hash from image bytes is not modelled: hashes are
 * inputs, and a photo whose file is missing or cannot be hashed has none.
 */
module Duplicates {
  import opened Common
  import opened Models

  /** Two photos are duplicates when their hashes differ in at most this many bits. */
  const SimilarityThreshold: nat := 10

  /** The distance reported when either hash cannot be parsed or the shapes differ. */
  const HashErrorDistance: nat := 100

  // ---------------------------------------------------------------------------
  // Hash strings and their bits
  // ---------------------------------------------------------------------------

  /** The value of a hexadecimal digit, in either case. */
  function HexValue(c: char): (r: Option<nat>)
    ensures r.Some? <==> ('0' <= c <= '9' || 'a' <= c <= 'f' || 'A' <= c <= 'F')
    ensures r.Some? ==> r.value < 16
  {
    if '0' <= c <= '9' then Some(c as nat - '0' as nat)
    else if 'a' <= c <= 'f' then Some(c as nat - 'a' as nat + 10)
    else if 'A' <= c <= 'F' then Some(c as nat - 'A' as nat + 10)
    else None
  }

  /** A non-empty string of hexadecimal digits. */
  predicate IsHexString(s: string) {
    s != [] && forall i :: 0 <= i < |s| ==> HexValue(s[i]).Some?
  }

  /** The four bits of a hexadecimal digit, most significant first. */
  function NibbleBits(v: nat): (r: seq<bool>)
    requires v < 16
    ensures |r| == 4
    ensures v == (if r[0] then 8 else 0) + (if r[1] then 4 else 0) + (if r[2] then 2 else 0) + (if r[3] then 1 else 0)
  {
    [v / 8 % 2 == 1, v / 4 % 2 == 1, v / 2 % 2 == 1, v % 2 == 1]
  }

  /** The bit array a hex string stands for: four bits per digit. */
  function HashBits(s: string): (r: seq<bool>)
    requires forall i :: 0 <= i < |s| ==> HexValue(s[i]).Some?
    ensures |r| == 4 * |s|
  {
    if s == [] then []
    else NibbleBits(HexValue(s[0]).value) + HashBits(s[1..])
  }

  /** The number of positions at which two equally long bit arrays differ. */
  function Hamming(a: seq<bool>, b: seq<bool>): (r: nat)
    requires |a| == |b|
    ensures r <= |a|
    ensures r == 0 <==> a == b
  {
    if a == [] then 0
    else
      var rest := Hamming(a[1..], b[1..]);
      assert a == [a[0]] + a[1..] && b == [b[0]] + b[1..];
      (if a[0] != b[0] then 1 else 0) + rest
  }

  /** Bit-difference counting does not depend on the order of its arguments. */
  lemma {:induction false} HammingSymmetric(a: seq<bool>, b: seq<bool>)
    requires |a| == |b|
    ensures Hamming(a, b) == Hamming(b, a)
    decreases |a|
  {
    if a != [] {
      HammingSymmetric(a[1..], b[1..]);
    }
  }

  /**
   * `hash_distance`: the number of differing bits of two hashes; the error
   * distance when either is not a hex string or their shapes differ.
   */
  function HashDistance(h1: string, h2: string): (r: nat)
    ensures !(IsHexString(h1) && IsHexString(h2) && |h1| == |h2|) ==> r == HashErrorDistance
    ensures IsHexString(h1) && IsHexString(h2) && |h1| == |h2| ==>
      r <= 4 * |h1| && (r == 0 <==> HashBits(h1) == HashBits(h2))
  {
    if IsHexString(h1) && IsHexString(h2) && |h1| == |h2| then Hamming(HashBits(h1), HashBits(h2))
    else HashErrorDistance
  }

  /** The distance between two hashes is symmetric. */
  lemma HashDistanceSymmetric(h1: string, h2: string)
    ensures HashDistance(h1, h2) == HashDistance(h2, h1)
  {
    if IsHexString(h1) && IsHexString(h2) && |h1| == |h2| {
      HammingSymmetric(HashBits(h1), HashBits(h2));
    }
  }

  /** A well-formed hash is at distance 0 from itself, so a re-upload of the same photo always matches. */
  lemma SameHashMatches(h: string)
    requires IsHexString(h)
    ensures HashDistance(h, h) == 0 && HashDistance(h, h) <= SimilarityThreshold
  {
  }

  /** A malformed or mismatched pair never counts as similar. */
  lemma MalformedNeverSimilar(h1: string, h2: string)
    requires !IsHexString(h1) || !IsHexString(h2) || |h1| != |h2|
    ensures HashDistance(h1, h2) > SimilarityThreshold
  {
  }

  // ---------------------------------------------------------------------------
  // The search
  // ---------------------------------------------------------------------------

  /** The stored photo's hash for each media id; None when its file is missing or hashing it fails. */
  type StoredHashes = nat -> Option<string>

  /** The media's issue exists and is already COMPLETED or VERIFIED. */
  predicate ProblemClosed(st: State, pid: Option<nat>) {
    pid.Some? && pid.value < |st.problems| && IsResolved(st.problems[pid.value].status)
  }

  /** Media `i` is an initial photo whose issue is still open: the search compares against it. */
  predicate Candidate(st: State, i: nat) {
    i < |st.media| && st.media[i].mediaType == PhotoInitial && !ProblemClosed(st, st.media[i].problemId)
  }

  /** Media `i` is a candidate whose stored photo is within the threshold of the new one. */
  predicate IsMatch(st: State, newHash: string, stored: StoredHashes, i: nat) {
    Candidate(st, i) && stored(i).Some? && HashDistance(newHash, stored(i).value) <= SimilarityThreshold
  }

  /** The first match at or after position `k`, in media order. */
  function FirstMatchFrom(st: State, newHash: string, stored: StoredHashes, k: nat): (r: Option<nat>)
    ensures r.Some? ==> k <= r.value < |st.media| && IsMatch(st, newHash, stored, r.value)
    ensures r.Some? ==> forall j :: k <= j < r.value ==> !IsMatch(st, newHash, stored, j)
    ensures r.None? ==> forall j :: k <= j < |st.media| ==> !IsMatch(st, newHash, stored, j)
    decreases |st.media| - k
  {
    if k >= |st.media| then None
    else if IsMatch(st, newHash, stored, k) then Some(k)
    else FirstMatchFrom(st, newHash, stored, k + 1)
  }

  /** The outcome of the search: whether a duplicate was found, and its issue. */
  datatype DuplicateCheck = DuplicateCheck(isDuplicate: bool, problemId: Option<nat>)

  const NoDuplicate: DuplicateCheck := DuplicateCheck(false, None)

  /**
   * The search as a function: the first matching media in query order, with
   * its issue id; no duplicate when the new photo's hash could not be computed.
   */
  function DuplicateReport(st: State, newHash: Option<string>, stored: StoredHashes): (r: DuplicateCheck)
    ensures newHash.None? ==> r == NoDuplicate
    ensures r.isDuplicate <==> newHash.Some? && exists i :: 0 <= i < |st.media| && IsMatch(st, newHash.value, stored, i)
    ensures !r.isDuplicate ==> r == NoDuplicate
  {
    if newHash.None? then NoDuplicate
    else
      match FirstMatchFrom(st, newHash.value, stored, 0)
      case None => NoDuplicate
      case Some(i) => DuplicateCheck(true, st.media[i].problemId)
  }

  /**
   * `check_duplicate_image`: walks the media in order, skipping other media
   * types, closed issues and unreadable files, and stops at the first photo
   * within the threshold.
   */
  method CheckDuplicateImage(st: State, newHash: Option<string>, stored: StoredHashes) returns (r: DuplicateCheck)
    ensures r == DuplicateReport(st, newHash, stored)
    ensures r.isDuplicate ==>
      exists i :: 0 <= i < |st.media| && IsMatch(st, newHash.value, stored, i)
        && (forall j :: 0 <= j < i ==> !IsMatch(st, newHash.value, stored, j))
        && r.problemId == st.media[i].problemId
  {
    if newHash.None? {
      return NoDuplicate;
    }
    var h := newHash.value;
    var k := 0;
    while k < |st.media|
      invariant 0 <= k <= |st.media|
      invariant forall j :: 0 <= j < k ==> !IsMatch(st, h, stored, j)
      invariant FirstMatchFrom(st, h, stored, 0) == FirstMatchFrom(st, h, stored, k)
    {
      var m := st.media[k];
      if m.mediaType != PhotoInitial || ProblemClosed(st, m.problemId) {
        k := k + 1;
        continue;
      }
      var existing := stored(k);
      if existing.None? {
        k := k + 1;
        continue;
      }
      if HashDistance(h, existing.value) <= SimilarityThreshold {
        return DuplicateCheck(true, m.problemId);
      }
      k := k + 1;
    }
    return NoDuplicate;
  }

  /** A photo of an issue that is already COMPLETED or VERIFIED is never reported as a duplicate. */
  lemma ClosedIssuesNeverReported(st: State, newHash: Option<string>, stored: StoredHashes)
    requires forall i :: 0 <= i < |st.media| ==> ProblemClosed(st, st.media[i].problemId)
    ensures DuplicateReport(st, newHash, stored) == NoDuplicate
  {
  }

  /**
   * A media whose file is missing or unreadable is skipped without ending
   * the search: hiding such a file only removes it from the matches.
   */
  lemma UnreadableFileSkipped(st: State, h: string, stored: StoredHashes, i: nat, j: nat)
    requires i < j < |st.media| && stored(i).None?
    requires IsMatch(st, h, stored, j)
    requires forall k :: 0 <= k < j ==> !IsMatch(st, h, stored, k)
    ensures DuplicateReport(st, Some(h), stored) == DuplicateCheck(true, st.media[j].problemId)
  {
  }
}
