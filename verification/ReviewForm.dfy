/** The open-review form: the handlers of its script, from one await to the next. The
    customer, the file reader and the network decide what happens between them; every
    reply may be lost. The class Form performs the stretches in place and is proved to
    do what the functions say. */
module ReviewForm {
  import opened Wrappers

  /** What the gateway said about this product when the page was prepared. */
  datatype Policy = Policy(
    productId: string,
    generation: string,
    settingsRevision: nat,
    disclosure: string,
    authorBinding: string)

  /** The fields as the customer left them, trimmed. `reported` is the browser's own
      validation. */
  datatype Input = Input(reported: bool, locale: string, rating: int, displayName: string, title: string, body: string,
                         consent: bool)

  datatype File = File(size: nat, contentType: string)

  datatype Body = Body(policy: Policy, submissionId: string, locale: string, rating: int, displayName: string,
                       title: string, body: string, mediaIds: seq<string>)

  datatype Photo = Photo(submissionId: string, uploadId: string, policy: Policy, contentType: string, base64: string)

  datatype Upload = Upload(id: Option<string>, payload: Photo)

  /** What the script is waiting for. */
  datatype Activity = Idle | Reading(left: seq<File>) | Uploading(index: nat) | Submitting

  datatype Sent = PhotoSent(photo: Photo) | ReviewSent(review: Body)

  /** How an API call ends: an explicit rejection, a valid receipt, or anything else
      (another status, a malformed or oversized body, a timeout, a lost reply). */
  datatype Answer = InvalidPhoto | InvalidInput | Receipt(id: string) | Received | Unclear

  /** `issued` are the random identifiers drawn so far, `log` the requests that left,
      and `answered` what came back for them. */
  datatype FormState = FormState(
    policy: Option<Policy>,
    photosEnabled: bool,
    pending: Option<Body>,
    busy: bool,
    completed: bool,
    uncertain: bool,
    uploads: seq<Upload>,
    submissionDispatched: bool,
    activity: Activity,
    issued: set<string>,
    log: seq<Sent>,
    answered: map<nat, Answer>)

  datatype Action =
    | Prepared(policy: Policy, photosEnabled: bool)
    | Submit(input: Input, files: seq<File>, submissionId: string)
    | FileRead(base64: Option<string>, uploadId: string)
    | Answered(answer: Answer)
    | Retry

  const MAX_PHOTOS: nat := 5
  const MAX_PHOTO_BYTES: nat := 2 * 1024 * 1024

  predicate AcceptsInput(input: Input) {
    && 1 <= input.rating <= 5
    && 1 <= |input.displayName| <= 80
    && 1 <= |input.title| <= 120
    && 20 <= |input.body| <= 10000
    && input.consent
  }

  predicate AcceptsFiles(files: seq<File>) {
    && |files| <= MAX_PHOTOS
    && forall i :: 0 <= i < |files| ==>
         1 <= files[i].size <= MAX_PHOTO_BYTES
         && (files[i].contentType == "image/jpeg" || files[i].contentType == "image/png"
             || files[i].contentType == "image/webp")
  }

  function Fresh(): FormState {
    FormState(None, false, None, false, false, false, [], false, Idle, {}, [], map[])
  }

  // -------------------------------------------------------------- the stretches

  /** The first upload from `from` on that has no receipt yet. */
  function NextMissing(uploads: seq<Upload>, from: nat): (k: nat)
    requires from <= |uploads|
    ensures from <= k <= |uploads|
    ensures forall i :: from <= i < k ==> uploads[i].id.Some?
    ensures k < |uploads| ==> uploads[k].id.None?
    decreases |uploads| - from
  {
    if from == |uploads| || uploads[from].id.None? then from else NextMissing(uploads, from + 1)
  }

  function Receipts(uploads: seq<Upload>): seq<string> {
    seq(|uploads|, i requires 0 <= i < |uploads| => if uploads[i].id.Some? then uploads[i].id.value else "")
  }

  /** The body of `send` from upload number `from` up to its next request. */
  function Proceed(f: FormState, from: nat): FormState
    requires from <= |f.uploads| && f.pending.Some?
  {
    var k := NextMissing(f.uploads, from);
    if k < |f.uploads|
    then f.(activity := Uploading(k), log := f.log + [PhotoSent(f.uploads[k].payload)])
    else
      var review := f.pending.value.(mediaIds := Receipts(f.uploads));
      f.(pending := Some(review), submissionDispatched := true, activity := Submitting,
         log := f.log + [ReviewSent(review)])
  }

  function Send(f: FormState): FormState {
    if f.busy || f.completed || f.pending.None? then f else Proceed(f.(busy := true), 0)
  }

  /** The catch and finally blocks of `send`. */
  function Catch(f: FormState, error: Answer): FormState {
    var done := f.(busy := false, activity := Idle);
    if error.InvalidPhoto? && !f.submissionDispatched then done.(pending := None, uploads := [], uncertain := false)
    else if error.InvalidInput? && !f.uncertain && |f.uploads| == 0 then done.(pending := None)
    else done.(uncertain := true)
  }

  function Noted(f: FormState, answer: Answer): FormState {
    if |f.log| == 0 then f else f.(answered := f.answered[|f.log| - 1 := answer])
  }

  function OnAnswered(f: FormState, answer: Answer): FormState {
    match f.activity
    case Uploading(k) =>
      var g := Noted(f, answer);
      if answer.Receipt? && k < |f.uploads| && f.pending.Some?
      then Proceed(g.(uploads := f.uploads[k := f.uploads[k].(id := Some(answer.id))]), k + 1)
      else Catch(g, answer)
    case Submitting =>
      var g := Noted(f, answer);
      if answer.Received?
      then g.(completed := true, uploads := [], pending := None, busy := false, activity := Idle)
      else Catch(g, if answer.InvalidPhoto? then Unclear else answer)
    case _ => f
  }

  function OnSubmit(f: FormState, input: Input, files: seq<File>, submissionId: string): FormState {
    if f.busy || f.completed || f.pending.Some? || f.policy.None? || !input.reported then f
    else if !AcceptsInput(input) then f
    else
      var photos := if f.photosEnabled then files else [];
      if !AcceptsFiles(photos) || submissionId in f.issued then f
      else
        var review := Body(f.policy.value, submissionId, input.locale, input.rating, input.displayName, input.title,
                           input.body, []);
        var g := f.(pending := Some(review), submissionDispatched := false, uploads := [],
                    issued := f.issued + {submissionId});
        if photos == [] then Send(g) else g.(busy := true, activity := Reading(photos))
  }

  function OnFileRead(f: FormState, base64: Option<string>, uploadId: string): FormState {
    if !f.activity.Reading? || f.activity.left == [] || f.pending.None? || uploadId in f.issued then f
    else if base64.None? then f.(uploads := [], pending := None, busy := false, activity := Idle)
    else
      var review := f.pending.value;
      var photo := Photo(review.submissionId, uploadId, review.policy, f.activity.left[0].contentType, base64.value);
      var g := f.(uploads := f.uploads + [Upload(None, photo)], issued := f.issued + {uploadId},
                  activity := Reading(f.activity.left[1..]));
      if |f.activity.left| > 1 then g else Send(g.(busy := false))
  }

  function Next(f: FormState, a: Action): FormState {
    match a
    case Prepared(policy, photosEnabled) =>
      if f.policy.None? then f.(policy := Some(policy), photosEnabled := photosEnabled) else f
    case Submit(input, files, submissionId) => OnSubmit(f, input, files, submissionId)
    case FileRead(base64, uploadId) => OnFileRead(f, base64, uploadId)
    case Answered(answer) => OnAnswered(f, answer)
    case Retry => Send(f)
  }

  function Run(f: FormState, actions: seq<Action>): FormState
    decreases |actions|
  {
    if actions == [] then f else Run(Next(f, actions[0]), actions[1..])
  }

  // ----------------------------------------------------------------- the object

  class Form {
    var policy: Option<Policy>
    var photosEnabled: bool
    var pending: Option<Body>
    var busy: bool
    var completed: bool
    var uncertain: bool
    var uploads: seq<Upload>
    var submissionDispatched: bool
    var activity: Activity
    ghost var issued: set<string>
    ghost var log: seq<Sent>
    ghost var answered: map<nat, Answer>

    ghost function State(): FormState
      reads this
    {
      FormState(policy, photosEnabled, pending, busy, completed, uncertain, uploads, submissionDispatched, activity,
                issued, log, answered)
    }

    constructor ()
      ensures State() == Fresh()
    {
      policy, photosEnabled, pending, busy, completed, uncertain := None, false, None, false, false, false;
      uploads, submissionDispatched, activity := [], false, Idle;
      issued, log, answered := {}, [], map[];
    }

    /** The loop of `send`: on to the next photo without a receipt, or to the review. */
    method Proceeds(from: nat)
      requires from <= |uploads| && pending.Some?
      modifies this`pending, this`submissionDispatched, this`activity, this`log
      ensures State() == Proceed(old(State()), from)
    {
      var k := from;
      while k < |uploads| && uploads[k].id.Some?
        invariant from <= k <= |uploads|
        invariant NextMissing(uploads, from) == NextMissing(uploads, k)
      {
        k := k + 1;
      }
      if k < |uploads| {
        activity := Uploading(k);
        log := log + [PhotoSent(uploads[k].payload)];
      } else {
        pending := Some(pending.value.(mediaIds := Receipts(uploads)));
        submissionDispatched, activity := true, Submitting;
        log := log + [ReviewSent(pending.value)];
      }
    }

    method Sends()
      modifies this`pending, this`submissionDispatched, this`activity, this`log, this`busy
      ensures State() == Send(old(State()))
    {
      if busy || completed || pending.None? { return; }
      busy := true;
      Proceeds(0);
    }

    method Fails(error: Answer)
      modifies this`pending, this`uploads, this`uncertain, this`busy, this`activity
      ensures State() == Catch(old(State()), error)
    {
      busy, activity := false, Idle;
      if error.InvalidPhoto? && !submissionDispatched {
        pending, uploads, uncertain := None, [], false;
      } else if error.InvalidInput? && !uncertain && |uploads| == 0 {
        pending := None;
      } else {
        uncertain := true;
      }
    }

    method PhotoAnswered(answer: Answer)
      requires activity.Uploading? && activity.index < |uploads| && pending.Some? && |log| > 0
      modifies this
      ensures State() == OnAnswered(old(State()), answer)
    {
      answered := answered[|log| - 1 := answer];
      if answer.Receipt? {
        var k := activity.index;
        uploads := uploads[k := uploads[k].(id := Some(answer.id))];
        Proceeds(k + 1);
      } else {
        Fails(answer);
      }
    }

    method ReviewAnswered(answer: Answer)
      requires activity.Submitting? && |log| > 0
      modifies this
      ensures State() == OnAnswered(old(State()), answer)
    {
      answered := answered[|log| - 1 := answer];
      if answer.Received? {
        completed, uploads, pending, busy, activity := true, [], None, false, Idle;
      } else {
        Fails(if answer.InvalidPhoto? then Unclear else answer);
      }
    }

    /** The submit handler up to the first file; `submissionId` has just been drawn. */
    method Submitted(input: Input, files: seq<File>, submissionId: string)
      requires submissionId !in issued
      modifies this
      ensures State() == OnSubmit(old(State()), input, files, submissionId)
    {
      if busy || completed || pending.Some? || policy.None? || !input.reported { return; }
      if !AcceptsInput(input) { return; }
      var photos := if photosEnabled then files else [];
      if !AcceptsFiles(photos) { return; }
      pending := Some(Body(policy.value, submissionId, input.locale, input.rating, input.displayName, input.title,
                           input.body, []));
      submissionDispatched, uploads := false, [];
      issued := issued + {submissionId};
      if photos == [] {
        Sends();
      } else {
        busy, activity := true, Reading(photos);
      }
    }

    method PhotoRead(base64: Option<string>, uploadId: string)
      requires activity.Reading? && activity.left != [] && pending.Some? && uploadId !in issued
      modifies this
      ensures State() == OnFileRead(old(State()), base64, uploadId)
    {
      if base64.None? {
        uploads, pending, busy, activity := [], None, false, Idle;
        return;
      }
      var left := activity.left;
      var photo := Photo(pending.value.submissionId, uploadId, pending.value.policy, left[0].contentType, base64.value);
      uploads := uploads + [Upload(None, photo)];
      issued := issued + {uploadId};
      activity := Reading(left[1..]);
      if |left| == 1 {
        busy := false;
        Sends();
      }
    }
  }
}
