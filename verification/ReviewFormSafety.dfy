/** The promises of the open-review form, over every run of its handlers: whatever is
    lost, rejected or retried, no two reviews can come of it. */
module ReviewFormSafety {
  import opened Wrappers
  import opened ReviewForm

  // -------------------------------------------------------------- the invariant

  /** What has left and what has come back for it. */
  datatype Past = Past(log: seq<Sent>, answered: map<nat, Answer>)

  function PastOf(f: FormState): Past {
    Past(f.log, f.answered)
  }

  /** Request `k` is a review, and the server did not say that it took nothing: it may
      have taken it, or may yet take it. */
  predicate Open(p: Past, k: nat) {
    k < |p.log| && p.log[k].ReviewSent? && !(k in p.answered && p.answered[k].InvalidInput?)
  }

  /** Request `k` was for a photo of this submission, and was answered with this receipt. */
  predicate Receipt(p: Past, k: nat, photo: Photo, id: string) {
    k < |p.log| && k in p.answered && p.log[k] == PhotoSent(photo) && p.answered[k] == Answer.Receipt(id)
  }

  ghost predicate Receipted(p: Past, photo: Photo, id: string) {
    exists k: nat :: Receipt(p, k, photo, id)
  }

  ghost predicate MediumOk(p: Past, submissionId: string, id: string) {
    exists k: nat :: k < |p.log| && p.log[k].PhotoSent? && p.log[k].photo.submissionId == submissionId
      && Receipt(p, k, p.log[k].photo, id)
  }

  /** A review carries in each place a receipt of a photo of the same submission. */
  ghost predicate MediaOk(p: Past, review: Body) {
    forall m :: 0 <= m < |review.mediaIds| ==> MediumOk(p, review.submissionId, review.mediaIds[m])
  }

  ghost predicate LogOk(p: Past, issued: set<string>) {
    && (forall k :: k in p.answered ==> k < |p.log|)
    && (forall k :: 0 <= k < |p.log| && p.log[k].ReviewSent? ==>
          p.log[k].review.submissionId in issued && MediaOk(p, p.log[k].review))
    && (forall k :: 0 <= k < |p.log| && p.log[k].PhotoSent? ==> p.log[k].photo.uploadId in issued)
  }

  predicate SameIdentity(a: Sent, b: Sent) {
    || (a.ReviewSent? && b.ReviewSent? && a.review.submissionId == b.review.submissionId)
    || (a.PhotoSent? && b.PhotoSent? && a.photo.uploadId == b.photo.uploadId)
  }

  /** One submission identifier, one body; one upload identifier, one photo. */
  predicate Frozen(log: seq<Sent>) {
    forall i, j :: 0 <= i < |log| && 0 <= j < |log| && SameIdentity(log[i], log[j]) ==> log[i] == log[j]
  }

  /** Unless the form is completed, an open review is the pending one. */
  ghost predicate OpenOk(p: Past, pending: Option<Body>, completed: bool) {
    && (forall k: nat :: Open(p, k) && !completed ==>
          pending.Some? && pending.value.submissionId == p.log[k].review.submissionId)
    && (forall i: nat, j: nat :: Open(p, i) && Open(p, j) ==> p.log[i] == p.log[j])
  }

  predicate IsReviewOf(s: Sent, submissionId: string) {
    s.ReviewSent? && s.review.submissionId == submissionId
  }

  predicate PendingOk(log: seq<Sent>, issued: set<string>, review: Body, uploads: seq<Upload>, dispatched: bool) {
    && review.submissionId in issued
    && (forall k :: 0 <= k < |log| && IsReviewOf(log[k], review.submissionId) ==> dispatched && log[k].review == review)
    && (dispatched ==> review.mediaIds == Receipts(uploads) && forall i :: 0 <= i < |uploads| ==> uploads[i].id.Some?)
    && (forall i :: 0 <= i < |uploads| ==> uploads[i].payload.submissionId == review.submissionId)
  }

  ghost predicate UploadsOk(p: Past, issued: set<string>, uploads: seq<Upload>) {
    && (forall i :: 0 <= i < |uploads| ==>
          && uploads[i].payload.uploadId in issued
          && (uploads[i].id.Some? ==> Receipted(p, uploads[i].payload, uploads[i].id.value)))
    && (forall i, k ::
          0 <= i < |uploads| && 0 <= k < |p.log| && SameIdentity(p.log[k], PhotoSent(uploads[i].payload)) ==>
          p.log[k] == PhotoSent(uploads[i].payload))
    && (forall i, j :: 0 <= i < j < |uploads| ==> uploads[i].payload.uploadId != uploads[j].payload.uploadId)
  }

  /** Everything but where the script stands. */
  ghost predicate Stable(f: FormState) {
    && LogOk(PastOf(f), f.issued) && Frozen(f.log)
    && OpenOk(PastOf(f), f.pending, f.completed)
    && UploadsOk(PastOf(f), f.issued, f.uploads)
    && (f.pending.Some?
        ==> !f.completed && PendingOk(f.log, f.issued, f.pending.value, f.uploads, f.submissionDispatched))
    && (f.pending.None? ==> f.uploads == [])
  }

  predicate Waits(f: FormState, s: Sent) {
    |f.log| > 0 && f.log[|f.log| - 1] == s && |f.log| - 1 !in f.answered
  }

  predicate AllReceived(uploads: seq<Upload>, until: nat)
    requires until <= |uploads|
  {
    forall i :: 0 <= i < until ==> uploads[i].id.Some?
  }

  predicate ActivityOk(f: FormState) {
    && (f.busy <==> !f.activity.Idle?)
    && (f.busy ==> f.pending.Some?)
    && match f.activity
       case Idle => f.pending.Some? ==> f.uncertain
       case Reading(left) => left != [] && !f.submissionDispatched
       case Uploading(k) =>
         k < |f.uploads| && f.uploads[k].id.None? && AllReceived(f.uploads, k)
           && Waits(f, PhotoSent(f.uploads[k].payload))
       case Submitting =>
         && f.submissionDispatched && Waits(f, ReviewSent(f.pending.value))
         && (!f.uncertain ==> forall k :: 0 <= k < |f.log| - 1 ==> !IsReviewOf(f.log[k], f.pending.value.submissionId))
  }

  ghost predicate Inv(f: FormState) {
    Stable(f) && ActivityOk(f)
  }

  // ----------------------------------------------------------------- preservation

  /** More requests and answers keep what is known of the earlier ones. */
  predicate Extends(p: Past, q: Past) {
    p.log <= q.log && forall k :: k in p.answered ==> k in q.answered && q.answered[k] == p.answered[k]
  }

  lemma ReceiptStays(p: Past, q: Past, photo: Photo, id: string)
    requires Extends(p, q) && Receipted(p, photo, id)
    ensures Receipted(q, photo, id)
  {
    var k: nat :| Receipt(p, k, photo, id);
    assert Receipt(q, k, photo, id);
  }

  lemma MediaStaysOk(p: Past, q: Past, review: Body)
    requires Extends(p, q) && MediaOk(p, review)
    ensures MediaOk(q, review)
  {
    forall m | 0 <= m < |review.mediaIds| ensures MediumOk(q, review.submissionId, review.mediaIds[m]) {
      assert MediumOk(p, review.submissionId, review.mediaIds[m]);
      var k: nat :| k < |p.log| && p.log[k].PhotoSent? && p.log[k].photo.submissionId == review.submissionId
                 && Receipt(p, k, p.log[k].photo, review.mediaIds[m]);
      assert q.log[k] == p.log[k] && Receipt(q, k, q.log[k].photo, review.mediaIds[m]);
    }
  }

  lemma LogStaysOk(p: Past, q: Past, issued: set<string>, more: set<string>, uploads: seq<Upload>)
    requires Extends(p, q) && LogOk(p, issued) && UploadsOk(p, issued, uploads) && issued <= more
    requires forall k :: k in q.answered ==> k < |q.log|
    ensures forall k :: 0 <= k < |p.log| && p.log[k].ReviewSent? ==>
              p.log[k].review.submissionId in more && MediaOk(q, p.log[k].review)
    ensures forall i :: 0 <= i < |uploads| && uploads[i].id.Some? ==>
              Receipted(q, uploads[i].payload, uploads[i].id.value)
    ensures p.log == q.log ==> LogOk(q, more) && UploadsOk(q, more, uploads)
  {
    forall k | 0 <= k < |p.log| && p.log[k].ReviewSent?
      ensures MediaOk(q, p.log[k].review) { MediaStaysOk(p, q, p.log[k].review); }
    forall i | 0 <= i < |uploads| && uploads[i].id.Some? ensures Receipted(q, uploads[i].payload, uploads[i].id.value) {
      ReceiptStays(p, q, uploads[i].payload, uploads[i].id.value);
    }
    hide MediaOk, Receipted;
  }

  lemma ReceiptsAreMedia(p: Past, issued: set<string>, uploads: seq<Upload>, review: Body)
    requires UploadsOk(p, issued, uploads) && AllReceived(uploads, |uploads|) && review.mediaIds == Receipts(uploads)
    requires forall i :: 0 <= i < |uploads| ==> uploads[i].payload.submissionId == review.submissionId
    ensures MediaOk(p, review)
  {
    forall m | 0 <= m < |review.mediaIds| ensures MediumOk(p, review.submissionId, review.mediaIds[m]) {
      assert Receipted(p, uploads[m].payload, review.mediaIds[m]);
      var k: nat :| Receipt(p, k, uploads[m].payload, review.mediaIds[m]);
      assert p.log[k].photo == uploads[m].payload;
    }
  }

  /** What holds inside `send`, before it goes on from upload `from`. */
  ghost predicate Sending(f: FormState, from: nat) {
    && Stable(f) && f.busy && f.pending.Some?
    && from <= |f.uploads| && AllReceived(f.uploads, from)
    && (!f.uncertain ==> !f.submissionDispatched)
  }

  lemma ProceedKeeps(f: FormState, from: nat)
    requires Sending(f, from)
    ensures Inv(Proceed(f, from))
  {
    var k := NextMissing(f.uploads, from);
    if k < |f.uploads| { PhotoKeeps(f, k); } else { ReviewKeeps(f); }
    hide Inv, Stable;
  }

  lemma PhotoKeeps(f: FormState, k: nat)
    requires Stable(f) && f.busy && f.pending.Some?
    requires k < |f.uploads| && f.uploads[k].id.None? && AllReceived(f.uploads, k)
    ensures Inv(f.(activity := Uploading(k), log := f.log + [PhotoSent(f.uploads[k].payload)]))
  {
    var g := f.(activity := Uploading(k), log := f.log + [PhotoSent(f.uploads[k].payload)]);
    LogStaysOk(PastOf(f), PastOf(g), f.issued, f.issued, f.uploads);
    assert forall i: nat :: Open(PastOf(g), i) ==> Open(PastOf(f), i);
    hide MediaOk, Receipted, Receipts;
  }

  lemma ReviewKeeps(f: FormState)
    requires Stable(f) && f.busy && f.pending.Some? && AllReceived(f.uploads, |f.uploads|)
          && (!f.uncertain ==> !f.submissionDispatched)
    ensures
      var review := f.pending.value.(mediaIds := Receipts(f.uploads));
      Inv(f.(pending := Some(review), submissionDispatched := true, activity := Submitting,
             log := f.log + [ReviewSent(review)]))
  {
    var review := f.pending.value.(mediaIds := Receipts(f.uploads));
    var g := f.(pending := Some(review), submissionDispatched := true, activity := Submitting,
                log := f.log + [ReviewSent(review)]);
    LogStaysOk(PastOf(f), PastOf(g), f.issued, f.issued, f.uploads);
    ReceiptsAreMedia(PastOf(f), f.issued, f.uploads, review);
    MediaStaysOk(PastOf(f), PastOf(g), review);
    hide MediaOk, Receipted, Receipts;
    assert f.submissionDispatched ==> review == f.pending.value;
    assert forall k :: 0 <= k < |f.log| && IsReviewOf(f.log[k], review.submissionId) ==>
             f.submissionDispatched && f.log[k].review == review;
    assert forall i: nat :: Open(PastOf(g), i) ==> g.log[i] == ReviewSent(review) by {
      forall i: nat | Open(PastOf(g), i) ensures g.log[i] == ReviewSent(review) {
        if i < |f.log| { assert Open(PastOf(f), i) && IsReviewOf(f.log[i], review.submissionId); }
      }
    }
    assert LogOk(PastOf(g), g.issued) && UploadsOk(PastOf(g), g.issued, g.uploads);
  }

  lemma SendKeeps(f: FormState)
    requires Inv(f)
    ensures Inv(Send(f))
  {
    if !f.busy && !f.completed && f.pending.Some? {
      assert Sending(f.(busy := true), 0);
      ProceedKeeps(f.(busy := true), 0);
    }
    hide Inv;
  }

  /** A reply has come for the last request. */
  lemma NotedKeeps(f: FormState, answer: Answer)
    requires Stable(f) && |f.log| > 0 && |f.log| - 1 !in f.answered
    ensures Stable(Noted(f, answer))
    ensures forall i: nat :: Open(PastOf(Noted(f, answer)), i) ==>
              Open(PastOf(f), i) && (i == |f.log| - 1 ==> !answer.InvalidInput?)
  {
    LogStaysOk(PastOf(f), PastOf(Noted(f, answer)), f.issued, f.issued, f.uploads);
    hide LogOk, UploadsOk, Frozen, PendingOk;
  }

  lemma ReceiptKeeps(f: FormState, k: nat, id: string)
    requires Inv(f) && f.activity == Uploading(k)
    ensures
      var g := Noted(f, Answer.Receipt(id)).(uploads := f.uploads[k := f.uploads[k].(id := Some(id))]);
      Sending(g, k + 1)
  {
    NotedKeeps(f, Answer.Receipt(id));
    var h := Noted(f, Answer.Receipt(id));
    assert Receipt(PastOf(h), |f.log| - 1, f.uploads[k].payload, id);
    assert Receipted(PastOf(h), f.uploads[k].payload, id);
    hide LogOk, Frozen, OpenOk, Receipted, Receipt;
  }

  /** The form forgets a submission only if none of its reviews is open. */
  lemma ForgetKeeps(f: FormState, uncertain: bool)
    requires Stable(f) && f.pending.Some?
    requires forall k: nat :: Open(PastOf(f), k) ==> !IsReviewOf(f.log[k], f.pending.value.submissionId)
    ensures Inv(f.(pending := None, uploads := [], uncertain := uncertain, busy := false, activity := Idle))
  {
    hide LogOk, Frozen;
  }

  lemma PhotoFailureKeeps(f: FormState, k: nat, answer: Answer)
    requires Inv(f) && f.activity == Uploading(k) && !answer.Receipt?
    ensures Inv(Catch(Noted(f, answer), answer))
  {
    NotedKeeps(f, answer);
    var g := Noted(f, answer);
    if answer.InvalidPhoto? && !g.submissionDispatched {
      ForgetKeeps(g, false);
    }
    hide LogOk, Frozen, OpenOk, UploadsOk, PendingOk;
  }

  lemma ReviewFailureKeeps(f: FormState, answer: Answer)
    requires Inv(f) && f.activity.Submitting? && !answer.Received?
    ensures Inv(Catch(Noted(f, answer), if answer.InvalidPhoto? then Unclear else answer))
  {
    NotedKeeps(f, answer);
    var g := Noted(f, answer);
    if answer.InvalidInput? && !g.uncertain && |g.uploads| == 0 {
      ForgetKeeps(g, false);
    }
    hide LogOk, Frozen, OpenOk, UploadsOk, PendingOk;
  }

  lemma ReceivedKeeps(f: FormState)
    requires Inv(f) && f.activity.Submitting?
    ensures Inv(Noted(f, Received).(completed := true, uploads := [], pending := None, busy := false, activity := Idle))
  {
    NotedKeeps(f, Received);
    hide LogOk, Frozen, PendingOk;
  }

  lemma AnsweredKeeps(f: FormState, answer: Answer)
    requires Inv(f)
    ensures Inv(OnAnswered(f, answer))
  {
    if f.activity.Uploading? {
      var k := f.activity.index;
      if answer.Receipt? {
        ReceiptKeeps(f, k, answer.id);
        ProceedKeeps(Noted(f, answer).(uploads := f.uploads[k := f.uploads[k].(id := Some(answer.id))]), k + 1);
      } else {
        PhotoFailureKeeps(f, k, answer);
      }
    } else if f.activity.Submitting? {
      if answer.Received? { ReceivedKeeps(f); } else { ReviewFailureKeeps(f, answer); }
    }
    hide Stable, Sending, Catch, Proceed, Noted;
  }

  /** A new submission starts from scratch: nothing before it is open. */
  lemma SubmitKeeps(f: FormState, input: Input, files: seq<File>, submissionId: string)
    requires Inv(f)
    ensures Inv(OnSubmit(f, input, files, submissionId))
  {
    if !f.busy && !f.completed && f.pending.None? && f.policy.Some? && submissionId !in f.issued {
      var review := Body(f.policy.value, submissionId, input.locale, input.rating, input.displayName, input.title,
                         input.body, []);
      DraftKeeps(f, review);
      var g := f.(pending := Some(review), submissionDispatched := false, uploads := [],
                  issued := f.issued + {submissionId}, busy := true);
      ProceedKeeps(g, 0);
      assert g.(busy := false).(busy := true) == g;
    }
    hide Stable, AcceptsInput, AcceptsFiles, Proceed;
  }

  lemma DraftKeeps(f: FormState, review: Body)
    requires Inv(f) && !f.completed && f.pending.None? && review.submissionId !in f.issued && review.mediaIds == []
    ensures Sending(f.(pending := Some(review), submissionDispatched := false, uploads := [],
                       issued := f.issued + {review.submissionId}, busy := true), 0)
  {
    hide Frozen, MediaOk;
  }

  lemma FileReadKeeps(f: FormState, base64: Option<string>, uploadId: string)
    requires Inv(f)
    ensures Inv(OnFileRead(f, base64, uploadId))
  {
    if f.activity.Reading? && uploadId !in f.issued {
      if base64.None? {
        ForgetKeeps(f, f.uncertain);
      } else {
        var photo := Photo(f.pending.value.submissionId, uploadId, f.pending.value.policy,
                           f.activity.left[0].contentType, base64.value);
        ReadKeeps(f, photo);
        var g := f.(uploads := f.uploads + [Upload(None, photo)], issued := f.issued + {uploadId},
                    activity := Reading(f.activity.left[1..]));
        if |f.activity.left| == 1 { ProceedKeeps(g, 0); }
        assert g.(busy := false).(busy := true) == g;
      }
    }
    hide Stable, Proceed;
  }

  lemma ReadKeeps(f: FormState, photo: Photo)
    requires Inv(f) && f.activity.Reading? && photo.uploadId !in f.issued
          && photo.submissionId == f.pending.value.submissionId
    ensures Sending(f.(uploads := f.uploads + [Upload(None, photo)], issued := f.issued + {photo.uploadId},
                       activity := Reading(f.activity.left[1..])), 0)
  {
    hide Frozen, MediaOk, OpenOk, Receipted, Receipts;
  }

  lemma PreparedKeeps(f: FormState, policy: Policy, photosEnabled: bool)
    requires Inv(f)
    ensures Inv(f.(policy := Some(policy), photosEnabled := photosEnabled))
  {
  }

  lemma NextKeeps(f: FormState, a: Action)
    requires Inv(f)
    ensures Inv(Next(f, a))
  {
    hide Inv, OnSubmit, OnFileRead, OnAnswered, Send;
    match a {
      case Prepared(policy, photosEnabled) => PreparedKeeps(f, policy, photosEnabled);
      case Submit(input, files, submissionId) => SubmitKeeps(f, input, files, submissionId);
      case FileRead(base64, uploadId) => FileReadKeeps(f, base64, uploadId);
      case Answered(answer) => AnsweredKeeps(f, answer);
      case Retry => SendKeeps(f);
    }
  }

  lemma {:induction false} RunKeeps(f: FormState, actions: seq<Action>)
    requires Inv(f)
    ensures Inv(Run(f, actions))
    decreases |actions|
  {
    hide Inv, Next;
    if actions != [] {
      NextKeeps(f, actions[0]);
      RunKeeps(Next(f, actions[0]), actions[1..]);
    }
  }

  lemma ReachedKeeps(actions: seq<Action>)
    ensures Inv(Run(Fresh(), actions))
  {
    RunKeeps(Fresh(), actions);
  }

  // --------------------------------------------------------------------- promises

  /** Of all the review requests a form ever sends, those that the server did not
      explicitly reject carry one identifier, and one body down to the media. */
  lemma AtMostOneReview(actions: seq<Action>, i: nat, j: nat)
    requires Open(PastOf(Run(Fresh(), actions)), i) && Open(PastOf(Run(Fresh(), actions)), j)
    ensures Run(Fresh(), actions).log[i].review == Run(Fresh(), actions).log[j].review
  {
    ReachedKeeps(actions);
  }

  /** The identifiers under which a store keeps the reviews of these requests. */
  function Stored(p: Past, taken: seq<nat>): set<string>
    requires forall t :: 0 <= t < |taken| ==> Open(p, taken[t])
  {
    if taken == [] then {}
    else
      assert Open(p, taken[0]);
      Stored(p, taken[1..]) + {p.log[taken[0]].review.submissionId}
  }

  lemma {:induction false} StoredUnder(p: Past, taken: seq<nat>, id: string)
    requires forall t :: 0 <= t < |taken| ==> Open(p, taken[t]) && p.log[taken[t]].review.submissionId == id
    ensures Stored(p, taken) <= {id}
  {
    if taken != [] { StoredUnder(p, taken[1..], id); }
  }

  /** However the server orders, repeats or drops the requests it did not reject, a
      store with one review per identifier ends with one review at most. */
  lemma AtMostOneReviewIsStored(actions: seq<Action>, taken: seq<nat>)
    requires forall t :: 0 <= t < |taken| ==> Open(PastOf(Run(Fresh(), actions)), taken[t])
    ensures
      var stored := Stored(PastOf(Run(Fresh(), actions)), taken);
      forall a, b :: a in stored && b in stored ==> a == b
  {
    var p := PastOf(Run(Fresh(), actions));
    if taken != [] {
      assert Open(p, taken[0]);
      forall t | 0 <= t < |taken| ensures p.log[taken[t]].review.submissionId == p.log[taken[0]].review.submissionId {
        AtMostOneReview(actions, taken[t], taken[0]);
      }
      StoredUnder(p, taken, p.log[taken[0]].review.submissionId);
    }
  }

  /** A dispatched payload is frozen: requests under one submission identifier carry one
      body, and requests under one upload identifier one photo, rejected or not. */
  lemma PayloadsAreFrozen(actions: seq<Action>, i: nat, j: nat)
    requires i < |Run(Fresh(), actions).log| && j < |Run(Fresh(), actions).log|
    requires SameIdentity(Run(Fresh(), actions).log[i], Run(Fresh(), actions).log[j])
    ensures Run(Fresh(), actions).log[i] == Run(Fresh(), actions).log[j]
  {
    ReachedKeeps(actions);
  }

  /** The media of a review are receipts of photos sent for that very submission. */
  lemma MediaBelongToTheReview(actions: seq<Action>, i: nat, m: nat)
    requires i < |Run(Fresh(), actions).log| && Run(Fresh(), actions).log[i].ReviewSent?
    requires m < |Run(Fresh(), actions).log[i].review.mediaIds|
    ensures
      var f := Run(Fresh(), actions);
      MediumOk(PastOf(f), f.log[i].review.submissionId, f.log[i].review.mediaIds[m])
  {
    ReachedKeeps(actions);
    var f := Run(Fresh(), actions);
    assert MediaOk(PastOf(f), f.log[i].review);
  }

  /** Once received, the form is done: nothing more leaves, whatever is clicked. */
  lemma {:induction false} NothingFollowsReceipt(f: FormState, actions: seq<Action>)
    requires Inv(f) && f.completed
    ensures Run(f, actions).log == f.log && Run(f, actions).completed
    decreases |actions|
  {
    hide Inv, Next;
    if actions != [] {
      CompletedIsFinal(f, actions[0]);
      NextKeeps(f, actions[0]);
      NothingFollowsReceipt(Next(f, actions[0]), actions[1..]);
    }
  }

  lemma CompletedIsFinal(f: FormState, a: Action)
    requires Inv(f) && f.completed
    ensures Next(f, a).log == f.log && Next(f, a).completed
  {
    hide LogOk, Frozen, OpenOk, UploadsOk;
  }
}
