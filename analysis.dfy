/** The photo-capture wizard of the analysis page: five angle slots, the file
    checks, the step machine, and the submission pipeline that uploads the
    photos, calls the analysis function and stores the session. Storage, the
    datastore and the analysis function are oracles: their replies are inputs. */
module Capture {

  import opened Common
  import opened Seqs
  import opened Text
  import opened Records

  // ---------------------------------------------------------------- angles and slots

  datatype Angle = Top | Hairline | LeftTemple | RightTemple | Crown

  /** The angle's identifier as stored with a photo. */
  function AngleName(a: Angle): string
  {
    match a
    case Top => "top"
    case Hairline => "hairline"
    case LeftTemple => "left_temple"
    case RightTemple => "right_temple"
    case Crown => "crown"
  }

  /** The fixed part of a slot. */
  datatype AngleInfo = AngleInfo(angle: Angle, caption: string, instruction: string)

  /** The five angles, in capture order. */
  const ANGLES: seq<AngleInfo> := [
    AngleInfo(Top, "Top of Head",
      "Hold the camera directly above your head, about 12 inches away. Part your hair naturally."),
    AngleInfo(Hairline, "Hairline",
      "Face the camera and pull your hair back. Capture your full frontal hairline clearly."),
    AngleInfo(LeftTemple, "Left Temple",
      "Turn your head to show the left temple area. Keep the camera at eye level."),
    AngleInfo(RightTemple, "Right Temple",
      "Turn your head to show the right temple area. Keep the camera at eye level."),
    AngleInfo(Crown, "Crown",
      "Tilt your head forward and photograph the crown area from above and slightly behind.")
  ]

  /** A picked image: its name, MIME type and size in bytes. */
  datatype File = File(name: string, mimeType: string, size: nat)

  /** One slot of the wizard; `preview` is the image's data URL. */
  datatype PhotoSlot = PhotoSlot(
    angle: Angle, caption: string, instruction: string,
    file: Option<File>, preview: Option<string>)

  function EmptySlot(info: AngleInfo): PhotoSlot
  {
    PhotoSlot(info.angle, info.caption, info.instruction, None, None)
  }

  function InitialSlots(): seq<PhotoSlot>
  {
    [EmptySlot(ANGLES[0]), EmptySlot(ANGLES[1]), EmptySlot(ANGLES[2]),
     EmptySlot(ANGLES[3]), EmptySlot(ANGLES[4])]
  }

  /** Slot `s` describes angle `info`, and holds a file exactly when it holds a preview. */
  predicate SlotFits(s: PhotoSlot, info: AngleInfo)
  {
    s.angle == info.angle && s.caption == info.caption && s.instruction == info.instruction
    && (s.file.Some? <==> s.preview.Some?)
  }

  /** The slot array's invariant: five slots in `ANGLES` order. */
  predicate WellFormedSlots(slots: seq<PhotoSlot>)
  {
    |slots| == 5 && forall i :: 0 <= i < 5 ==> SlotFits(slots[i], ANGLES[i])
  }

  function Placed(s: PhotoSlot, f: File, preview: string): PhotoSlot
  {
    s.(file := Some(f), preview := Some(preview))
  }

  function Cleared(s: PhotoSlot): PhotoSlot
  {
    s.(file := None, preview := None)
  }

  predicate IsFilled(s: PhotoSlot)
  {
    s.file.Some?
  }

  /** `uploadedCount`: the number of slots holding a file. */
  function FilledCount(slots: seq<PhotoSlot>): nat
  {
    |Filter(slots, IsFilled)|
  }

  /** `canProceedToReview`: analysis needs at least two photos. */
  predicate CanProceed(slots: seq<PhotoSlot>)
  {
    FilledCount(slots) >= 2
  }

  lemma InitialSlotsWellFormed()
    ensures WellFormedSlots(InitialSlots())
    ensures FilledCount(InitialSlots()) == 0
    ensures !CanProceed(InitialSlots())
  {
  }

  /** Replacing one slot changes the count by what leaves and what arrives. */
  lemma {:induction false} FilledCountUpdate(slots: seq<PhotoSlot>, i: nat, x: PhotoSlot)
    requires i < |slots|
    ensures FilledCount(slots[i := x])
      == FilledCount(slots) - (if IsFilled(slots[i]) then 1 else 0) + (if IsFilled(x) then 1 else 0)
    decreases |slots|
  {
    if i > 0 {
      FilledCountUpdate(slots[1..], i - 1, x);
      assert slots[i := x][1..] == slots[1..][i - 1 := x];
    } else {
      assert slots[i := x][1..] == slots[1..];
    }
  }

  /** Filling an empty slot raises the count by one; emptying a filled slot
      lowers it by one; the other cases leave it as it was. */
  lemma CountAfterPlaceAndRemove(slots: seq<PhotoSlot>, i: nat, f: File, preview: string)
    requires i < |slots|
    ensures FilledCount(slots[i := Placed(slots[i], f, preview)])
      == FilledCount(slots) + (if IsFilled(slots[i]) then 0 else 1)
    ensures FilledCount(slots[i := Cleared(slots[i])])
      == FilledCount(slots) - (if IsFilled(slots[i]) then 1 else 0)
  {
    FilledCountUpdate(slots, i, Placed(slots[i], f, preview));
    FilledCountUpdate(slots, i, Cleared(slots[i]));
  }

  /** Placing or clearing a file keeps the slot array well formed. */
  lemma UpdatesKeepWellFormed(slots: seq<PhotoSlot>, i: nat, f: File, preview: string)
    requires WellFormedSlots(slots) && i < 5
    ensures WellFormedSlots(slots[i := Placed(slots[i], f, preview)])
    ensures WellFormedSlots(slots[i := Cleared(slots[i])])
  {
  }

  // ---------------------------------------------------------------- file acceptance

  /** 10 MB, the largest file the picker accepts. */
  const MAX_FILE_SIZE: nat := 10 * 1024 * 1024

  /** What `handleFileChange` does with a picked file. */
  datatype FileVerdict = NoFile | InvalidType | TooLarge | Accepted

  function CheckFile(file: Option<File>): FileVerdict
  {
    if file.None? then NoFile
    else if !StartsWith(file.value.mimeType, "image/") then InvalidType
    else if file.value.size > MAX_FILE_SIZE then TooLarge
    else Accepted
  }

  /** A file is taken exactly when it is present, has an image MIME type and is
      at most 10 MB; the type is checked before the size. */
  lemma CheckFileAccepts(file: Option<File>)
    ensures CheckFile(file) == Accepted
      <==> file.Some? && StartsWith(file.value.mimeType, "image/") && file.value.size <= MAX_FILE_SIZE
    ensures CheckFile(file) == TooLarge
      <==> file.Some? && StartsWith(file.value.mimeType, "image/") && file.value.size > MAX_FILE_SIZE
  {
  }

  /** The file that a camera or gallery capture produces for slot `index`: a JPEG
      named after the angle. These files are not checked for type or size. */
  function DeviceFile(index: nat, size: nat): File
    requires index < 5
  {
    File(AngleName(ANGLES[index].angle) + ".jpg", "image/jpeg", size)
  }

  // ---------------------------------------------------------------- step machine

  /** Steps: 0 intro, 1..5 one per angle, 6 review, 7 analyzing, 8 results, 9 error. */
  const INTRO: nat := 0
  const REVIEW: nat := 6
  const ANALYZING: nat := 7
  const RESULTS: nat := 8
  const ERROR: nat := 9

  /** The navigation buttons of the intro, capture and review screens. */
  datatype Nav = Start | Next | Skip | Back

  /** Skip is offered on a capture step whose slot has no file. */
  predicate SkipOffered(step: nat, slots: seq<PhotoSlot>)
    requires |slots| == 5
  {
    1 <= step <= 5 && !IsFilled(slots[step - 1])
  }

  /** The step a navigation button leads to, or `None` where the button is not shown. */
  function Navigate(step: nat, nav: Nav, slots: seq<PhotoSlot>): Option<nat>
    requires |slots| == 5
  {
    match nav
    case Start => if step == INTRO then Some(1) else None
    case Next => if 1 <= step <= 5 then Some(if step + 1 < REVIEW then step + 1 else REVIEW) else None
    case Skip => if SkipOffered(step, slots) then Some(if step + 1 < REVIEW then step + 1 else REVIEW) else None
    case Back =>
      if 1 <= step <= 5 then Some(step - 1)
      else if step == REVIEW then Some(5)
      else None
  }

  /** Navigation stays within intro, capture and review, moves by one step, and
      runs forward only from capture steps. */
  lemma NavigateBounds(step: nat, nav: Nav, slots: seq<PhotoSlot>)
    requires |slots| == 5
    ensures Navigate(step, nav, slots).Some? ==> step <= REVIEW && Navigate(step, nav, slots).value <= REVIEW
    ensures Navigate(step, nav, slots).Some? && nav != Back ==> Navigate(step, nav, slots).value == step + 1
    ensures Navigate(step, nav, slots).Some? && nav == Back ==> Navigate(step, nav, slots).value + 1 == step
  {
  }

  /** Back undoes Start, Next and Skip: from a capture step it returns to the
      previous one (to the intro from step 1), and from review to step 5. */
  lemma BackUndoesForward(step: nat, nav: Nav, slots: seq<PhotoSlot>)
    requires |slots| == 5 && nav != Back
    requires Navigate(step, nav, slots).Some?
    ensures Navigate(Navigate(step, nav, slots).value, Back, slots) == Some(step)
  {
  }

  /** Skip and Next lead to the same step; Skip exists only while the slot is empty. */
  lemma SkipIsNextOnEmptySlot(step: nat, slots: seq<PhotoSlot>)
    requires |slots| == 5
    ensures Navigate(step, Skip, slots).Some? <==> 1 <= step <= 5 && !IsFilled(slots[step - 1])
    ensures Navigate(step, Skip, slots).Some? ==> Navigate(step, Skip, slots) == Navigate(step, Next, slots)
  {
  }

  /** Start followed by five Next presses ends on the review step. */
  lemma WalkToReview(slots: seq<PhotoSlot>)
    requires |slots| == 5
    ensures Navigate(INTRO, Start, slots) == Some(1)
    ensures forall s :: 1 <= s <= 5 ==> Navigate(s, Next, slots) == Some(s + 1)
  {
  }

  // ---------------------------------------------------------------- error classification

  datatype ErrorCode = RateLimit | Credits | Upload | Auth | Unknown

  /** The error the page shows on the error step. */
  datatype AnalysisError = AnalysisError(message: string, code: ErrorCode)

  const DEFAULT_MESSAGE: string := "Something went wrong."

  /** The message of a caught error, with the empty message replaced. */
  function MessageOf(raw: string): (m: string)
    ensures m != []
  {
    if raw == "" then DEFAULT_MESSAGE else raw
  }

  /** The error code, by substring, first match winning. */
  function Classify(msg: string): ErrorCode
  {
    if Contains(msg, "Rate limit") then RateLimit
    else if Contains(msg, "credits") then Credits
    else if Contains(msg, "upload") || Contains(msg, "Upload") then Upload
    else if Contains(msg, "Unauthorized") then Auth
    else Unknown
  }

  /** The classifier's precedence: each code is given exactly when its phrase
      occurs and no earlier phrase does. */
  lemma ClassifyPrecedence(msg: string)
    ensures Classify(msg) == RateLimit <==> Contains(msg, "Rate limit")
    ensures Classify(msg) == Credits <==> !Contains(msg, "Rate limit") && Contains(msg, "credits")
    ensures Classify(msg) == Upload
      <==> !Contains(msg, "Rate limit") && !Contains(msg, "credits")
           && (Contains(msg, "upload") || Contains(msg, "Upload"))
    ensures Classify(msg) == Unknown
      <==> !Contains(msg, "Rate limit") && !Contains(msg, "credits") && !Contains(msg, "upload")
           && !Contains(msg, "Upload") && !Contains(msg, "Unauthorized")
  {
  }

  /** A message none of whose phrases can start is classified `unknown`. */
  lemma UnknownByPairs(m: string)
    requires NoPair(m, "Rate limit") && NoPair(m, "credits") && NoPair(m, "upload")
    requires NoPair(m, "Upload") && NoPair(m, "Unauthorized")
    ensures Classify(m) == Unknown
  {
    PairAbsent(m, "Rate limit");
    PairAbsent(m, "credits");
    PairAbsent(m, "upload");
    PairAbsent(m, "Upload");
    PairAbsent(m, "Unauthorized");
  }

  /** An error without a message is reported with the default text, which
      falls to `unknown`. */
  lemma DefaultMessageIsUnknown(m: string)
    requires m == MessageOf("")
    ensures m == DEFAULT_MESSAGE
    ensures Classify(m) == Unknown
  {
    assert m == "Something went wrong.";
    assert NoPair(m, "Rate limit");
    assert NoPair(m, "credits");
    assert NoPair(m, "upload");
    assert NoPair(m, "Upload");
    assert NoPair(m, "Unauthorized");
    UnknownByPairs(m);
  }

  /** The text a failed upload raises. */
  function UploadFailureMessage(caption: string): string
  {
    "Failed to upload " + caption + " photo"
  }

  /** Whatever the caption, an upload failure contains "upload"; it is classified
      as an upload error unless the caption spells out an earlier phrase. */
  lemma UploadMessageClassifies(caption: string)
    requires NoPair(caption, "Rate limit") && NoPair(caption, "credits")
    ensures Contains(UploadFailureMessage(caption), "upload")
    ensures Classify(UploadFailureMessage(caption)) == Upload
  {
    var m := UploadFailureMessage(caption);
    var head := "Failed to upload ";
    var tail := " photo";
    ContainsInfix("Failed to ", "upload", " " + caption + tail);
    assert "Failed to " + "upload" + (" " + caption + tail) == m;
    assert NoPair(head, "Rate limit") && NoPair(head, "credits");
    assert NoPair(tail, "Rate limit") && NoPair(tail, "credits");
    NoPairConcat(head, caption, "Rate limit");
    NoPairConcat(head, caption, "credits");
    NoPairConcat(head + caption, tail, "Rate limit");
    NoPairConcat(head + caption, tail, "credits");
    assert head + caption + tail == m;
    PairAbsent(m, "Rate limit");
    PairAbsent(m, "credits");
  }

  /** No angle caption holds the start of "Rate limit" or of "credits". */
  lemma CaptionsAvoidPhrases(c: string)
    requires c == "Top of Head" || c == "Hairline" || c == "Left Temple" || c == "Right Temple" || c == "Crown"
    ensures NoPair(c, "Rate limit") && NoPair(c, "credits")
  {
    if c == "Top of Head" {
      assert NoPair(c, "Rate limit") && NoPair(c, "credits");
    } else if c == "Hairline" {
      assert NoPair(c, "Rate limit") && NoPair(c, "credits");
    } else if c == "Left Temple" {
      assert NoPair(c, "Rate limit") && NoPair(c, "credits");
    } else if c == "Right Temple" {
      assert NoPair(c, "Rate limit") && NoPair(c, "credits");
    }
  }

  /** The upload failure of any of the five slots is classified as an upload error. */
  lemma UploadFailureClassifies(k: nat)
    requires k < 5
    ensures Contains(UploadFailureMessage(ANGLES[k].caption), "upload")
    ensures Classify(UploadFailureMessage(ANGLES[k].caption)) == Upload
  {
    var c := ANGLES[k].caption;
    assert c == "Top of Head" || c == "Hairline" || c == "Left Temple" || c == "Right Temple" || c == "Crown";
    CaptionsAvoidPhrases(c);
    UploadMessageClassifies(c);
  }

  // ---------------------------------------------------------------- uploads

  /** The storage's replies for one slot: whether the upload succeeded, and the
      signed URL it then minted, if any. */
  datatype StorageReply = StorageReply(uploaded: bool, signedUrl: Option<string>)

  /** The state of the upload loop: the storage keys it has tried, the photos
      that produced a signed URL, and the error that stopped it. */
  datatype UploadRun = UploadRun(keys: seq<string>, photos: seq<PhotoRef>, failure: Option<string>)

  /** `user/timestamp_angle.ext`, the object key of a slot's upload. */
  function StorageKey(user: string, ts: nat, slot: PhotoSlot): string
    requires IsFilled(slot)
  {
    KeyHead(user, ts, slot.angle) + "." + Extension(slot.file.value.name)
  }

  /** The part of a key before the extension's dot. */
  function KeyHead(user: string, ts: nat, a: Angle): string
  {
    user + "/" + NatToString(ts) + "_" + AngleName(a)
  }

  /** The extension of `a.e` is `e` when `e` has no dot. */
  lemma ExtensionAfterDot(a: string, e: string)
    requires '.' !in e
    ensures Extension(a + "." + e) == e
  {
    var s := a + "." + e;
    assert s[|s| - |e| - 1] == '.';
    assert s[|s| - |e|..] == e;
  }

  /** A key lies in the user's folder and keeps the file's extension. */
  lemma StorageKeyShape(user: string, ts: nat, slot: PhotoSlot)
    requires IsFilled(slot)
    ensures StartsWith(StorageKey(user, ts, slot), user + "/")
    ensures Extension(StorageKey(user, ts, slot)) == Extension(slot.file.value.name)
  {
    var head := KeyHead(user, ts, slot.angle);
    assert head[..|user + "/"|] == user + "/";
    KeyParts(user, head, Extension(slot.file.value.name), StorageKey(user, ts, slot));
  }

  lemma KeyParts(user: string, head: string, ext: string, key: string)
    requires '.' !in ext && StartsWith(head, user + "/") && key == head + "." + ext
    ensures StartsWith(key, user + "/") && Extension(key) == ext
  {
    ExtensionAfterDot(head, ext);
    assert key[..|user + "/"|] == head[..|user + "/"|];
  }

  /** One pass of the loop body: an empty slot is skipped; a filled one is
      uploaded, and a failed upload stops the loop for good. */
  function UploadStep(run: UploadRun, slot: PhotoSlot, user: string, ts: nat, reply: StorageReply): UploadRun
  {
    if run.failure.Some? || !IsFilled(slot) then run
    else
      var keys := run.keys + [StorageKey(user, ts, slot)];
      if !reply.uploaded then UploadRun(keys, run.photos, Some(UploadFailureMessage(slot.caption)))
      else if reply.signedUrl.Some? && reply.signedUrl.value != "" then
        UploadRun(keys, run.photos + [PhotoRef(reply.signedUrl.value, AngleName(slot.angle))], None)
      else UploadRun(keys, run.photos, None)
  }

  /** The loop after its first `n` slots; slot `i` is uploaded at time `now[i]`. */
  function UploadPrefix(slots: seq<PhotoSlot>, user: string, now: seq<nat>,
                        replies: seq<StorageReply>, n: nat): UploadRun
    requires n <= |slots| && |now| == |slots| && |replies| == |slots|
  {
    if n == 0 then UploadRun([], [], None)
    else UploadStep(UploadPrefix(slots, user, now, replies, n - 1), slots[n - 1], user, now[n - 1], replies[n - 1])
  }

  /** The keys of the filled slots among the first `n`, in slot order. */
  function FilledKeys(slots: seq<PhotoSlot>, user: string, now: seq<nat>, n: nat): seq<string>
    requires n <= |slots| && |now| == |slots|
  {
    if n == 0 then []
    else FilledKeys(slots, user, now, n - 1)
         + (if IsFilled(slots[n - 1]) then [StorageKey(user, now[n - 1], slots[n - 1])] else [])
  }

  function PhotoAngles(photos: seq<PhotoRef>): (r: seq<string>)
    ensures |r| == |photos|
  {
    if photos == [] then [] else PhotoAngles(photos[..|photos| - 1]) + [photos[|photos| - 1].angle]
  }

  function SlotAngles(slots: seq<PhotoSlot>): (r: seq<string>)
    ensures |r| == |slots|
  {
    if slots == [] then [] else SlotAngles(slots[..|slots| - 1]) + [AngleName(slots[|slots| - 1].angle)]
  }

  lemma {:induction false} FilledKeysCount(slots: seq<PhotoSlot>, user: string, now: seq<nat>, n: nat)
    requires n <= |slots| && |now| == |slots|
    ensures |FilledKeys(slots, user, now, n)| == FilledCount(slots[..n])
    decreases n
  {
    if n > 0 {
      FilledKeysCount(slots, user, now, n - 1);
      assert slots[..n] == slots[..n - 1] + [slots[n - 1]];
      FilterConcat(slots[..n - 1], [slots[n - 1]], IsFilled);
    }
  }

  /** Once an upload has failed, the remaining slots change nothing. */
  lemma {:induction false} FailureIsFinal(slots: seq<PhotoSlot>, user: string, now: seq<nat>,
                                          replies: seq<StorageReply>, i: nat, n: nat)
    requires i <= n <= |slots| && |now| == |slots| && |replies| == |slots|
    requires UploadPrefix(slots, user, now, replies, i).failure.Some?
    ensures UploadPrefix(slots, user, now, replies, n) == UploadPrefix(slots, user, now, replies, i)
    decreases n
  {
    if n > i {
      FailureIsFinal(slots, user, now, replies, i, n - 1);
    }
  }

  /** One pass of the loop: a stopped run or an empty slot changes nothing;
      otherwise the slot's key is tried, and at most one photo is added. */
  lemma StepKeys(run: UploadRun, slot: PhotoSlot, user: string, ts: nat, reply: StorageReply)
    ensures var next := UploadStep(run, slot, user, ts, reply);
      && (run.failure.Some? || !IsFilled(slot) ==> next == run)
      && (run.failure.None? && IsFilled(slot) ==>
            && next.keys == run.keys + [StorageKey(user, ts, slot)]
            && |next.photos| <= |run.photos| + 1)
  {
  }

  /** The loop tries the filled slots' keys in slot order and stops after the
      first failure: the keys tried are a prefix of all filled keys, all of them
      when nothing failed; a failure ends on a tried key; only tried slots can
      produce a photo. */
  lemma {:induction false} UploadKeys(slots: seq<PhotoSlot>, user: string, now: seq<nat>,
                                      replies: seq<StorageReply>, n: nat)
    requires n <= |slots| && |now| == |slots| && |replies| == |slots|
    ensures var run := UploadPrefix(slots, user, now, replies, n);
      && run.keys <= FilledKeys(slots, user, now, n)
      && (run.failure.None? ==> run.keys == FilledKeys(slots, user, now, n))
      && (run.failure.Some? ==> run.keys != [])
      && |run.photos| <= |run.keys|
    decreases n
  {
    if n > 0 {
      UploadKeys(slots, user, now, replies, n - 1);
      var prev := UploadPrefix(slots, user, now, replies, n - 1);
      var slot := slots[n - 1];
      var run := UploadStep(prev, slot, user, now[n - 1], replies[n - 1]);
      assert run == UploadPrefix(slots, user, now, replies, n);
      var before := FilledKeys(slots, user, now, n - 1);
      var after := FilledKeys(slots, user, now, n);
      StepKeys(prev, slot, user, now[n - 1], replies[n - 1]);
      if !IsFilled(slot) {
        assert after == before;
      } else {
        assert after == before + [StorageKey(user, now[n - 1], slot)];
        if prev.failure.Some? {
          assert prev.keys <= before && before <= after;
        }
      }
    }
  }

  /** At most the filled slots are uploaded, and every one of them when no upload
      fails. */
  lemma UploadBounds(slots: seq<PhotoSlot>, user: string, now: seq<nat>, replies: seq<StorageReply>)
    requires |slots| == 5 && |now| == 5 && |replies| == 5
    ensures var run := UploadPrefix(slots, user, now, replies, 5);
      && |run.photos| <= |run.keys| <= FilledCount(slots)
      && (run.failure.None? ==> |run.keys| == FilledCount(slots))
  {
    UploadKeys(slots, user, now, replies, 5);
    FilledKeysCount(slots, user, now, 5);
    assert slots[..5] == slots;
  }

  /** A step adds at most one photo, and only for a filled slot, showing its
      angle; it adds one exactly when the run is still going, the slot is
      filled and its reply is signed, and that photo carries the signed URL. */
  lemma StepPhotos(run: UploadRun, slot: PhotoSlot, user: string, ts: nat, reply: StorageReply)
    ensures var next := UploadStep(run, slot, user, ts, reply);
      next.photos == run.photos
      || (IsFilled(slot) && PhotoAngles(next.photos) == PhotoAngles(run.photos) + [AngleName(slot.angle)])
    ensures run.failure.None? && IsFilled(slot) && Signed(reply) ==>
      UploadStep(run, slot, user, ts, reply).photos
        == run.photos + [PhotoRef(reply.signedUrl.value, AngleName(slot.angle))]
    ensures !(run.failure.None? && IsFilled(slot) && Signed(reply)) ==>
      UploadStep(run, slot, user, ts, reply).photos == run.photos
  {
    if run.failure.None? && IsFilled(slot) {
      StepFilled(run, slot, user, ts, reply);
      if Signed(reply) {
        var photo := PhotoRef(reply.signedUrl.value, AngleName(slot.angle));
        assert SlotPhoto(slot, reply) == [photo];
        assert (run.photos + [photo])[..|run.photos|] == run.photos;
      } else {
        assert SlotPhoto(slot, reply) == [];
      }
    }
  }

  lemma SlotAnglesSnoc(xs: seq<PhotoSlot>, x: PhotoSlot)
    ensures SlotAngles(xs + [x]) == SlotAngles(xs) + [AngleName(x.angle)]
  {
    assert (xs + [x])[..|xs|] == xs;
  }

  /** The collected photos keep slot order: their angles are a subsequence of
      the filled slots' angles. */
  lemma {:induction false} UploadOrder(slots: seq<PhotoSlot>, user: string, now: seq<nat>,
                                       replies: seq<StorageReply>, n: nat)
    requires n <= |slots| && |now| == |slots| && |replies| == |slots|
    ensures Subsequence(PhotoAngles(UploadPrefix(slots, user, now, replies, n).photos),
                        SlotAngles(Filter(slots[..n], IsFilled)))
    decreases n
  {
    if n == 0 {
      assert slots[..0] == [];
    } else {
      UploadOrder(slots, user, now, replies, n - 1);
      var prev := UploadPrefix(slots, user, now, replies, n - 1);
      var slot := slots[n - 1];
      StepPhotos(prev, slot, user, now[n - 1], replies[n - 1]);
      assert slots[..n] == slots[..n - 1] + [slot];
      FilterConcat(slots[..n - 1], [slot], IsFilled);
      var filledBefore := Filter(slots[..n - 1], IsFilled);
      if IsFilled(slot) {
        assert Filter(slots[..n], IsFilled) == filledBefore + [slot];
        SlotAnglesSnoc(filledBefore, slot);
        SubsequenceSnoc(PhotoAngles(prev.photos), SlotAngles(filledBefore), AngleName(slot.angle));
      } else {
        assert Filter(slots[..n], IsFilled) == filledBefore;
      }
    }
  }

  /** A storage reply that stored the file and signed a non-empty URL. */
  predicate Signed(reply: StorageReply)
  {
    reply.uploaded && reply.signedUrl.Some? && reply.signedUrl.value != ""
  }

  /** The photo a slot contributes: its signed URL and angle when it is filled
      and its reply is signed, and none otherwise. */
  function SlotPhoto(slot: PhotoSlot, reply: StorageReply): seq<PhotoRef>
  {
    if IsFilled(slot) && Signed(reply) then [PhotoRef(reply.signedUrl.value, AngleName(slot.angle))] else []
  }

  /** The photos the first `n` slots contribute, read off the replies alone:
      one per filled slot whose reply is signed, carrying that signed URL and
      the slot's angle, in slot order. */
  function SignedPhotos(slots: seq<PhotoSlot>, replies: seq<StorageReply>, n: nat): seq<PhotoRef>
    requires n <= |slots| && |replies| == |slots|
  {
    if n == 0 then []
    else SignedPhotos(slots, replies, n - 1) + SlotPhoto(slots[n - 1], replies[n - 1])
  }

  /** A photo is among the signed ones exactly when some filled slot's reply
      is signed and the photo carries that reply's URL and the slot's angle. */
  lemma {:induction false} SignedPhotosMembers(slots: seq<PhotoSlot>, replies: seq<StorageReply>, n: nat, p: PhotoRef)
    requires n <= |slots| && |replies| == |slots|
    ensures p in SignedPhotos(slots, replies, n) <==>
      exists k :: 0 <= k < n && IsFilled(slots[k]) && Signed(replies[k])
                  && p == PhotoRef(replies[k].signedUrl.value, AngleName(slots[k].angle))
    decreases n
  {
    if n > 0 {
      SignedPhotosMembers(slots, replies, n - 1, p);
      var before := SignedPhotos(slots, replies, n - 1);
      if p in SignedPhotos(slots, replies, n) {
        if p !in before {
          var k := n - 1;
          assert IsFilled(slots[k]) && Signed(replies[k])
                 && p == PhotoRef(replies[k].signedUrl.value, AngleName(slots[k].angle));
        }
      } else {
        forall k | 0 <= k < n && IsFilled(slots[k]) && Signed(replies[k])
          ensures p != PhotoRef(replies[k].signedUrl.value, AngleName(slots[k].angle))
        {
          if k == n - 1 {
            assert PhotoRef(replies[k].signedUrl.value, AngleName(slots[k].angle)) in SignedPhotos(slots, replies, n);
          }
        }
      }
    }
  }

  /** One pass that leaves the run going was taken on a run still going, and
      added the slot's signed photo when there is one, and nothing otherwise. */
  lemma StepSigned(run: UploadRun, slot: PhotoSlot, user: string, ts: nat, reply: StorageReply)
    ensures UploadStep(run, slot, user, ts, reply).failure.None? ==> run.failure.None?
    ensures UploadStep(run, slot, user, ts, reply).failure.None? ==>
      UploadStep(run, slot, user, ts, reply).photos == run.photos + SlotPhoto(slot, reply)
  {
  }

  /** A run that did not fail has collected exactly the signed photos: the
      photo of every filled slot with a signed URL, with that URL, and no other. */
  lemma {:induction false} UploadCollectsSigned(slots: seq<PhotoSlot>, user: string, now: seq<nat>,
                                                replies: seq<StorageReply>, n: nat)
    requires n <= |slots| && |now| == |slots| && |replies| == |slots|
    ensures UploadPrefix(slots, user, now, replies, n).failure.None? ==>
      UploadPrefix(slots, user, now, replies, n).photos == SignedPhotos(slots, replies, n)
    decreases n
  {
    if n > 0 {
      var prev := UploadPrefix(slots, user, now, replies, n - 1);
      var run := UploadPrefix(slots, user, now, replies, n);
      var extra := SlotPhoto(slots[n - 1], replies[n - 1]);
      PrefixSigned(slots, user, now, replies, n - 1);
      if run.failure.None? {
        UploadCollectsSigned(slots, user, now, replies, n - 1);
        assert run.photos == prev.photos + extra;
        assert SignedPhotos(slots, replies, n) == SignedPhotos(slots, replies, n - 1) + extra;
      }
    }
  }

  /** The run after slot `i` is still going only if the run before it was,
      and then it has gained slot `i`'s signed photo, if any. */
  lemma PrefixSigned(slots: seq<PhotoSlot>, user: string, now: seq<nat>, replies: seq<StorageReply>, i: nat)
    requires i < |slots| && |now| == |slots| && |replies| == |slots|
    ensures UploadPrefix(slots, user, now, replies, i + 1).failure.None? ==>
      && UploadPrefix(slots, user, now, replies, i).failure.None?
      && UploadPrefix(slots, user, now, replies, i + 1).photos
         == UploadPrefix(slots, user, now, replies, i).photos + SlotPhoto(slots[i], replies[i])
  {
    PrefixStep(slots, user, now, replies, i);
    StepSigned(UploadPrefix(slots, user, now, replies, i), slots[i], user, now[i], replies[i]);
  }

  /** When every filled slot's file is stored and signed, no upload fails and
      each filled slot yields one photo. */
  lemma {:induction false} AllSignedCollectsAll(slots: seq<PhotoSlot>, user: string, now: seq<nat>,
                                                replies: seq<StorageReply>, n: nat)
    requires n <= |slots| && |now| == |slots| && |replies| == |slots|
    requires forall k :: 0 <= k < |slots| && IsFilled(slots[k]) ==> Signed(replies[k])
    ensures UploadPrefix(slots, user, now, replies, n).failure.None?
    ensures |UploadPrefix(slots, user, now, replies, n).photos| == FilledCount(slots[..n])
    decreases n
  {
    if n == 0 {
      assert slots[..0] == [];
    } else {
      AllSignedCollectsAll(slots, user, now, replies, n - 1);
      assert slots[..n] == slots[..n - 1] + [slots[n - 1]];
      FilterConcat(slots[..n - 1], [slots[n - 1]], IsFilled);
    }
  }

  /** A failure names a slot that was tried. */
  lemma {:induction false} FailureNamesSlot(slots: seq<PhotoSlot>, user: string, now: seq<nat>,
                                            replies: seq<StorageReply>, n: nat)
    requires n <= |slots| && |now| == |slots| && |replies| == |slots|
    requires UploadPrefix(slots, user, now, replies, n).failure.Some?
    ensures exists k :: 0 <= k < n && UploadPrefix(slots, user, now, replies, n).failure
                                      == Some(UploadFailureMessage(slots[k].caption))
    decreases n
  {
    if UploadPrefix(slots, user, now, replies, n - 1).failure.Some? {
      FailureNamesSlot(slots, user, now, replies, n - 1);
    }
  }

  /** A failed upload stops the submission with an upload error. */
  lemma UploadFailureIsUploadError(slots: seq<PhotoSlot>, user: string, now: seq<nat>, replies: seq<StorageReply>)
    requires WellFormedSlots(slots) && |now| == 5 && |replies| == 5
    requires UploadPrefix(slots, user, now, replies, 5).failure.Some?
    ensures Contains(UploadPrefix(slots, user, now, replies, 5).failure.value, "upload")
    ensures Classify(MessageOf(UploadPrefix(slots, user, now, replies, 5).failure.value)) == Upload
  {
    FailureNamesSlot(slots, user, now, replies, 5);
    var k :| 0 <= k < 5 && UploadPrefix(slots, user, now, replies, 5).failure
                            == Some(UploadFailureMessage(slots[k].caption));
    UploadFailureClassifies(k);
  }

  /** The run after slot `i` is one loop pass on the run before it. */
  lemma PrefixStep(slots: seq<PhotoSlot>, user: string, now: seq<nat>, replies: seq<StorageReply>, i: nat)
    requires i < |slots| && |now| == |slots| && |replies| == |slots|
    ensures UploadPrefix(slots, user, now, replies, i + 1)
      == UploadStep(UploadPrefix(slots, user, now, replies, i), slots[i], user, now[i], replies[i])
  {
  }

  /** The loop body for one slot: an empty slot is skipped; a filled one is
      uploaded under its key, a failed upload is reported, and a signed URL,
      when one comes back, adds the photo. */
  method UploadSlot(run: UploadRun, slot: PhotoSlot, user: string, ts: nat, reply: StorageReply)
    returns (next: UploadRun)
    requires run.failure.None?
    ensures next == UploadStep(run, slot, user, ts, reply)
  {
    if slot.file.None? {
      next := run;
    } else {
      next := UploadFilled(run, slot, StorageKey(user, ts, slot), reply);
      StepFilled(run, slot, user, ts, reply);
    }
  }

  /** A pass over a filled slot of a run still going: the key is tried, and
      the run stops with the slot's failure message, or gains its signed photo. */
  lemma StepFilled(run: UploadRun, slot: PhotoSlot, user: string, ts: nat, reply: StorageReply)
    requires run.failure.None? && IsFilled(slot)
    ensures !reply.uploaded ==>
      UploadStep(run, slot, user, ts, reply)
        == UploadRun(run.keys + [StorageKey(user, ts, slot)], run.photos, Some(UploadFailureMessage(slot.caption)))
    ensures reply.uploaded ==>
      UploadStep(run, slot, user, ts, reply)
        == UploadRun(run.keys + [StorageKey(user, ts, slot)], run.photos + SlotPhoto(slot, reply), None)
  {
    assert run.photos + [] == run.photos;
  }

  /** A filled slot's upload under `key`: the failure message when the file
      was not stored, otherwise the key tried and the signed photo, if any. */
  method UploadFilled(run: UploadRun, slot: PhotoSlot, key: string, reply: StorageReply)
    returns (next: UploadRun)
    requires IsFilled(slot)
    ensures !reply.uploaded ==> next == UploadRun(run.keys + [key], run.photos, Some(UploadFailureMessage(slot.caption)))
    ensures reply.uploaded ==> next == UploadRun(run.keys + [key], run.photos + SlotPhoto(slot, reply), None)
  {
    var keys := run.keys + [key];
    var signed := reply.signedUrl;
    if !reply.uploaded {
      next := UploadRun(keys, run.photos, Some(UploadFailureMessage(slot.caption)));
    } else if signed.Some? && signed.value != "" {
      next := UploadRun(keys, run.photos + [PhotoRef(signed.value, AngleName(slot.angle))], None);
    } else {
      next := UploadRun(keys, run.photos, None);
      assert run.photos + SlotPhoto(slot, reply) == run.photos;
    }
  }

  /** The upload loop of `handleAnalyze`: the slots in order, empty ones skipped,
      leaving the loop at the first failed upload. */
  method UploadPhotos(photos: array<PhotoSlot>, user: string, now: seq<nat>, replies: seq<StorageReply>)
    returns (run: UploadRun)
    requires |now| == photos.Length && |replies| == photos.Length
    ensures run == UploadPrefix(photos[..], user, now, replies, photos.Length)
  {
    ghost var slots := photos[..];
    run := UploadRun([], [], None);
    var i := 0;
    while i < photos.Length && run.failure.None?
      invariant 0 <= i <= photos.Length
      invariant run == UploadPrefix(slots, user, now, replies, i)
    {
      assert photos[i] == slots[i];
      PrefixStep(slots, user, now, replies, i);
      run := UploadSlot(run, photos[i], user, now[i], replies[i]);
      i := i + 1;
    }
    if run.failure.Some? {
      FailureIsFinal(slots, user, now, replies, i, photos.Length);
    }
  }

  // ---------------------------------------------------------------- persistence

  /** A write request to the datastore. */
  datatype DbWrite =
    | SessionInsert(userId: string, overall: int, density: int, hairline: int, crown: int,
                    summary: string, notes: Option<string>, alert: bool)
    | PhotoInsert(sessionId: string, userId: string, angle: string, url: string)

  /** The reply to the session insert. */
  datatype SessionReply = Inserted(id: string) | InsertFailed(message: string)

  /** The writes issued, and the error that stopped them. */
  datatype Persisted = Persisted(writes: seq<DbWrite>, failure: Option<string>)

  /** `comparison_notes || null`: a missing or empty note is stored as null. */
  function NotesOrNull(notes: Option<string>): (r: Option<string>)
    ensures r.Some? <==> notes.Some? && notes.value != ""
    ensures r.Some? ==> r == notes
  {
    if notes.Some? && notes.value != "" then notes else None
  }

  function SessionRow(user: string, r: AnalysisResult): DbWrite
  {
    SessionInsert(user, r.overallScore, r.densityScore, r.hairlineScore, r.crownScore,
                  r.aiSummary, NotesOrNull(r.comparisonNotes), r.alertTriggered)
  }

  /** One photo row per uploaded photo, in order, each linked to the session. */
  function PhotoRows(sessionId: string, user: string, photos: seq<PhotoRef>): (rows: seq<DbWrite>)
    ensures |rows| == |photos|
    ensures forall k :: 0 <= k < |photos| ==>
      rows[k] == PhotoInsert(sessionId, user, photos[k].angle, photos[k].url)
  {
    if photos == [] then []
    else PhotoRows(sessionId, user, photos[..|photos| - 1])
         + [PhotoInsert(sessionId, user, photos[|photos| - 1].angle, photos[|photos| - 1].url)]
  }

  /** The session row first; the photo rows only once it exists. */
  function Persist(user: string, r: AnalysisResult, reply: SessionReply, photos: seq<PhotoRef>): Persisted
  {
    match reply
    case InsertFailed(m) => Persisted([SessionRow(user, r)], Some(m))
    case Inserted(id) => Persisted([SessionRow(user, r)] + PhotoRows(id, user, photos), None)
  }

  /** The session row precedes the photo rows; there is exactly one photo row
      per collected photo, each carrying the new session's id; a failed session
      insert writes no photo row. */
  lemma PersistShape(user: string, r: AnalysisResult, reply: SessionReply, photos: seq<PhotoRef>)
    ensures var p := Persist(user, r, reply, photos);
      && p.writes != [] && p.writes[0] == SessionRow(user, r)
      && p.writes[0].notes != Some("")
      && (reply.InsertFailed? ==> |p.writes| == 1 && p.failure == Some(reply.message))
      && (reply.Inserted? ==>
            && p.failure.None? && |p.writes| == 1 + |photos|
            && forall k :: 1 <= k < |p.writes| ==>
                 p.writes[k].PhotoInsert? && p.writes[k].sessionId == reply.id
                 && p.writes[k].url == photos[k - 1].url && p.writes[k].angle == photos[k - 1].angle)
  {
  }

  /** The two inserts of `handleAnalyze`. The photo inserts' own errors are not
      looked at. */
  method PersistSession(user: string, r: AnalysisResult, reply: SessionReply, photos: seq<PhotoRef>)
    returns (p: Persisted)
    ensures p == Persist(user, r, reply, photos)
  {
    var writes := [SessionRow(user, r)];
    if reply.InsertFailed? {
      return Persisted(writes, Some(reply.message));
    }
    var i := 0;
    while i < |photos|
      invariant 0 <= i <= |photos|
      invariant writes == [SessionRow(user, r)] + PhotoRows(reply.id, user, photos[..i])
    {
      assert photos[..i + 1][..i] == photos[..i];
      writes := writes + [PhotoInsert(reply.id, user, photos[i].angle, photos[i].url)];
      i := i + 1;
    }
    assert photos[..i] == photos;
    p := Persisted(writes, None);
  }

  // ---------------------------------------------------------------- the submission

  /** What the analysis function call returned: an error raised by the call, a
      reply carrying an `error` text, or a result. */
  datatype Reply = InvokeFailed(message: string) | ErrorReply(error: string) | ResultReply(result: AnalysisResult)

  /** Every reply the submission receives. `now[i]` is the clock when slot `i`
      is uploaded; `previousRows` is the newest-first score query, absent when
      it failed. */
  datatype Backend = Backend(
    now: seq<nat>,
    storage: seq<StorageReply>,
    previousRows: Option<seq<PreviousScores>>,
    reply: Reply,
    sessionReply: SessionReply)

  predicate BackendFits(b: Backend)
  {
    |b.now| == 5 && |b.storage| == 5
  }

  /** The body sent to the analysis function. */
  datatype Request = Request(photoUrls: seq<PhotoRef>, previousScores: Option<PreviousScores>)

  datatype Outcome = Succeeded(result: AnalysisResult) | Failed(error: AnalysisError)

  /** Everything one submission did: uploads, the request, the writes, the outcome. */
  datatype Submission = Submission(
    uploads: UploadRun, request: Option<Request>, persisted: Option<Persisted>, outcome: Outcome)

  /** The first row of the newest-first query, if there is one. */
  function PreviousScoresOf(rows: Option<seq<PreviousScores>>): Option<PreviousScores>
  {
    if rows.Some? && |rows.value| > 0 then Some(rows.value[0]) else None
  }

  /** The catch block: message defaulted, then classified. */
  function Caught(raw: string): Outcome
  {
    var m := MessageOf(raw);
    Failed(AnalysisError(m, Classify(m)))
  }

  /** `handleAnalyze` for a signed-in user, as a function of the slots and the replies. */
  function Submit(slots: seq<PhotoSlot>, user: string, b: Backend): Submission
    requires |slots| == 5 && BackendFits(b)
  {
    var run := UploadPrefix(slots, user, b.now, b.storage, 5);
    if run.failure.Some? then Submission(run, None, None, Caught(run.failure.value))
    else
      var request := Request(run.photos, PreviousScoresOf(b.previousRows));
      match b.reply
      case InvokeFailed(m) => Submission(run, Some(request), None, Caught(m))
      case ErrorReply(e) => Submission(run, Some(request), None, Caught(e))
      case ResultReply(r) =>
        var p := Persist(user, r, b.sessionReply, run.photos);
        if p.failure.Some? then Submission(run, Some(request), Some(p), Caught(p.failure.value))
        else Submission(run, Some(request), Some(p), Succeeded(r))
  }

  /** A failed upload means no request and no write, and an upload error. */
  lemma SubmitUploadFailure(slots: seq<PhotoSlot>, user: string, b: Backend)
    requires WellFormedSlots(slots) && BackendFits(b)
    requires UploadPrefix(slots, user, b.now, b.storage, 5).failure.Some?
    ensures var s := Submit(slots, user, b);
      s.request.None? && s.persisted.None? && s.outcome.Failed? && s.outcome.error.code == Upload
  {
    UploadFailureIsUploadError(slots, user, b.now, b.storage);
  }

  /** The request carries the collected photos and the first previous row's
      scores; a submission succeeds exactly when uploads, the call and the
      session insert all succeed, and then writes one session row and one photo
      row per collected photo, never more photo rows than filled slots. */
  lemma SubmitSuccess(slots: seq<PhotoSlot>, user: string, b: Backend)
    requires |slots| == 5 && BackendFits(b)
    ensures var s := Submit(slots, user, b);
      && (s.request.Some? <==> s.uploads.failure.None?)
      && (s.request.Some? ==> s.request.value == Request(s.uploads.photos, PreviousScoresOf(b.previousRows)))
      && (s.outcome.Succeeded?
          <==> s.uploads.failure.None? && b.reply.ResultReply? && b.sessionReply.Inserted?)
      && (s.outcome.Succeeded? ==>
            && s.outcome.result == b.reply.result
            && s.persisted.Some?
            && |s.persisted.value.writes| == 1 + |s.uploads.photos|
            && |s.uploads.photos| <= FilledCount(slots))
      && (s.uploads.failure.None? ==> s.uploads.photos == SignedPhotos(slots, b.storage, 5))
  {
    UploadBounds(slots, user, b.now, b.storage);
    UploadCollectsSigned(slots, user, b.now, b.storage, 5);
  }

  /** With every filled slot stored and signed, a result reply and a stored
      session, the submission succeeds with one photo, and one photo row, per
      filled slot. */
  lemma SubmitAllSigned(slots: seq<PhotoSlot>, user: string, b: Backend)
    requires |slots| == 5 && BackendFits(b)
    requires forall k :: 0 <= k < 5 && IsFilled(slots[k]) ==> Signed(b.storage[k])
    requires b.reply.ResultReply? && b.sessionReply.Inserted?
    ensures var s := Submit(slots, user, b);
      && s.outcome == Succeeded(b.reply.result)
      && |s.uploads.photos| == FilledCount(slots)
      && s.persisted.Some? && |s.persisted.value.writes| == 1 + FilledCount(slots)
  {
    AllSignedCollectsAll(slots, user, b.now, b.storage, 5);
    assert slots[..5] == slots;
  }

  /** A failure always carries a non-empty message and the code the classifier
      gives it. */
  lemma SubmitFailureClassified(slots: seq<PhotoSlot>, user: string, b: Backend)
    requires |slots| == 5 && BackendFits(b)
    ensures var s := Submit(slots, user, b);
      s.outcome.Failed? ==> s.outcome.error.message != "" && s.outcome.error.code == Classify(s.outcome.error.message)
  {
  }

  /** The previous scores are the first row of the query, or none. */
  lemma PreviousScoresFirstRow(rows: Option<seq<PreviousScores>>)
    ensures PreviousScoresOf(rows).Some? <==> rows.Some? && rows.value != []
    ensures PreviousScoresOf(rows).Some? ==> PreviousScoresOf(rows).value == rows.value[0]
  {
  }

  // ---------------------------------------------------------------- the wizard

  class Wizard {
    var step: nat
    const photos: array<PhotoSlot>
    var result: Option<AnalysisResult>
    var analysisError: Option<AnalysisError>
    var isAnalyzing: bool

    ghost predicate Valid()
      reads this, photos
    {
      step <= ERROR && WellFormedSlots(photos[..]) && (step == RESULTS ==> result.Some?) && !isAnalyzing
    }

    constructor ()
      ensures Valid() && fresh(photos)
      ensures step == INTRO && photos[..] == InitialSlots()
      ensures result.None? && analysisError.None? && !isAnalyzing
    {
      step := INTRO;
      photos := new PhotoSlot[] [EmptySlot(ANGLES[0]), EmptySlot(ANGLES[1]), EmptySlot(ANGLES[2]),
                                 EmptySlot(ANGLES[3]), EmptySlot(ANGLES[4])];
      result := None;
      analysisError := None;
      isAnalyzing := false;
    }

    /** `handleFileChange`: only an accepted file reaches slot `index`, with its preview. */
    method HandleFileChange(index: nat, file: Option<File>, preview: string) returns (verdict: FileVerdict)
      requires Valid()
      modifies photos
      ensures Valid()
      ensures verdict == CheckFile(file)
      ensures photos[..] == if verdict == Accepted && index < 5
                            then old(photos[..])[index := Placed(old(photos[index]), file.value, preview)]
                            else old(photos[..])
    {
      verdict := CheckFile(file);
      if verdict == Accepted && index < photos.Length {
        UpdatesKeepWellFormed(photos[..], index, file.value, preview);
        photos[index] := Placed(photos[index], file.value, preview);
      }
    }

    /** A camera or gallery capture: a non-empty data URL becomes the slot's
        JPEG file and preview; a cancelled or failed capture changes nothing. */
    method CapturePhoto(index: nat, dataUrl: Option<string>, size: nat)
      requires Valid() && index < 5
      modifies photos
      ensures Valid()
      ensures photos[..] == if dataUrl.Some? && dataUrl.value != ""
                            then old(photos[..])[index := Placed(old(photos[index]), DeviceFile(index, size), dataUrl.value)]
                            else old(photos[..])
    {
      if dataUrl.Some? && dataUrl.value != "" {
        UpdatesKeepWellFormed(photos[..], index, DeviceFile(index, size), dataUrl.value);
        photos[index] := Placed(photos[index], DeviceFile(index, size), dataUrl.value);
      }
    }

    /** `removePhoto`: clears file and preview of one slot. */
    method RemovePhoto(index: nat)
      requires Valid()
      modifies photos
      ensures Valid()
      ensures photos[..] == if index < 5 then old(photos[..])[index := Cleared(old(photos[index]))]
                            else old(photos[..])
    {
      if index < photos.Length {
        UpdatesKeepWellFormed(photos[..], index, File("", "", 0), "");
        photos[index] := Cleared(photos[index]);
      }
    }

    /** Start, Next, Skip and Back, each on the screen that shows it. */
    method Press(nav: Nav)
      requires Valid() && Navigate(step, nav, photos[..]).Some?
      modifies this
      ensures Valid()
      ensures step == Navigate(old(step), nav, photos[..]).value
      ensures result == old(result) && analysisError == old(analysisError) && isAnalyzing == old(isAnalyzing)
    {
      NavigateBounds(step, nav, photos[..]);
      step := Navigate(step, nav, photos[..]).value;
    }

    /** The submission itself. Without a user it does nothing; otherwise it ends
        on the results step with the result, or on the error step with the
        classified error, with `isAnalyzing` cleared and the slots untouched. */
    method HandleAnalyze(user: Option<string>, b: Backend) returns (submission: Option<Submission>)
      requires Valid() && BackendFits(b)
      modifies this
      ensures Valid()
      ensures user.None? ==> submission.None? && step == old(step) && result == old(result)
                             && analysisError == old(analysisError) && isAnalyzing == old(isAnalyzing)
      ensures user.Some? ==> submission == Some(Submit(photos[..], user.value, b)) && !isAnalyzing
      ensures user.Some? && submission.value.outcome.Succeeded? ==>
                step == RESULTS && result == Some(submission.value.outcome.result)
                && analysisError == old(analysisError)
      ensures user.Some? && submission.value.outcome.Failed? ==>
                step == ERROR && analysisError == Some(submission.value.outcome.error)
                && result == old(result)
    {
      if user.None? {
        return None;
      }
      var uid := user.value;
      step := ANALYZING;
      isAnalyzing := true;
      var run := UploadPhotos(photos, uid, b.now, b.storage);
      var s: Submission;
      if run.failure.Some? {
        s := Submission(run, None, None, Caught(run.failure.value));
      } else {
        var request := Request(run.photos, PreviousScoresOf(b.previousRows));
        match b.reply {
          case InvokeFailed(m) =>
            s := Submission(run, Some(request), None, Caught(m));
          case ErrorReply(e) =>
            s := Submission(run, Some(request), None, Caught(e));
          case ResultReply(r) =>
            var p := PersistSession(uid, r, b.sessionReply, run.photos);
            if p.failure.Some? {
              s := Submission(run, Some(request), Some(p), Caught(p.failure.value));
            } else {
              s := Submission(run, Some(request), Some(p), Succeeded(r));
            }
        }
      }
      match s.outcome {
        case Succeeded(r) =>
          result := Some(r);
          step := RESULTS;
        case Failed(e) =>
          analysisError := Some(e);
          step := ERROR;
      }
      isAnalyzing := false;
      submission := Some(s);
    }

    /** "Analyze Now" on the review step, enabled with at least two photos. */
    method Analyze(user: Option<string>, b: Backend) returns (submission: Option<Submission>)
      requires Valid() && BackendFits(b) && step == REVIEW && CanProceed(photos[..])
      modifies this
      ensures Valid()
      ensures user.Some? ==> submission == Some(Submit(photos[..], user.value, b))
                             && step == (if submission.value.outcome.Succeeded? then RESULTS else ERROR)
    {
      submission := HandleAnalyze(user, b);
    }

    /** "Retry Analysis": clears the error and runs the same submission again on
        the unchanged slots. */
    method Retry(user: Option<string>, b: Backend) returns (submission: Option<Submission>)
      requires Valid() && BackendFits(b) && step == ERROR
      modifies this
      ensures Valid()
      ensures user.None? ==> submission.None? && step == ERROR && analysisError.None?
      ensures user.Some? ==> submission == Some(Submit(photos[..], user.value, b))
                             && step == (if submission.value.outcome.Succeeded? then RESULTS else ERROR)
                             && (submission.value.outcome.Succeeded? ==> analysisError.None?)
    {
      analysisError := None;
      submission := HandleAnalyze(user, b);
    }

    /** "Edit Photos": clears the error and returns to review with the slots as they are. */
    method EditPhotos()
      requires Valid() && step == ERROR
      modifies this
      ensures Valid()
      ensures step == REVIEW && analysisError.None? && result == old(result) && isAnalyzing == old(isAnalyzing)
    {
      analysisError := None;
      step := REVIEW;
    }
  }
}
