/**
 * The feedback form: a type, a description of at most 500 characters and an
 * optional e-mail address, with the guard on submission and the reset and
 * close rules around it.
 */
module FeedbackModal {
  import opened Wrappers
  import opened Text

  /** `maxLength`: a description longer than this is over the limit. */
  const MaxLength: nat := 500

  /** The fixed address every report is sent to. */
  const Recipient: string := "g3s.data1@gmail.com"

  datatype Feedback = Feedback(
    feedbackType: string, description: string, userEmail: string, timestamp: string, destinataire: string)

  /** `isOverLimit`: measured on the untrimmed text. */
  predicate IsOverLimit(description: string) { |description| > MaxLength }

  /** `handleSubmit`'s guard: a type is chosen, the description is not blank and not over the limit. */
  predicate CanSubmit(feedbackType: string, description: string)
  {
    feedbackType != "" && !Blank(description) && !IsOverLimit(description)
  }

  /** The submit button's `disabled`: the guard fails, or a submission is running. */
  predicate SubmitDisabled(feedbackType: string, description: string, isSubmitting: bool)
  {
    feedbackType == "" || Trim(description) == "" || IsOverLimit(description) || isSubmitting
  }

  /** The button is enabled exactly when a submission would go through and none is running. */
  lemma DisabledIffGuardFails(feedbackType: string, description: string, isSubmitting: bool)
    ensures !SubmitDisabled(feedbackType, description, isSubmitting) <==>
      CanSubmit(feedbackType, description) && !isSubmitting
  {
  }

  /** Exactly 500 characters are allowed, 501 are not, whatever the text. */
  lemma LimitIsInclusive(feedbackType: string, description: string)
    requires feedbackType != "" && !Blank(description)
    ensures |description| <= 500 ==> CanSubmit(feedbackType, description)
    ensures |description| == 501 ==> !CanSubmit(feedbackType, description)
  {
  }

  /** The report sent: trimmed description and address, the submission instant, the fixed recipient. */
  function FeedbackOf(feedbackType: string, description: string, userEmail: string, isoNow: string): (r: Feedback)
    ensures r.feedbackType == feedbackType && r.timestamp == isoNow && r.destinataire == Recipient
    ensures r.description == Trim(description) && r.userEmail == Trim(userEmail)
    ensures IsTrimmed(r.description) && IsTrimmed(r.userEmail)
  {
    Feedback(feedbackType, Trim(description), Trim(userEmail), isoNow, Recipient)
  }

  /** A report that passed the guard has a non-empty description within the limit. */
  lemma SubmittedDescriptionBounded(feedbackType: string, description: string, userEmail: string, isoNow: string)
    requires CanSubmit(feedbackType, description)
    ensures var r := FeedbackOf(feedbackType, description, userEmail, isoNow);
      r.description != "" && |r.description| <= MaxLength
  {
  }

  class FeedbackForm {
    var feedbackType: string
    var description: string
    var userEmail: string
    var isSubmitting: bool

    constructor()
      ensures feedbackType == "" && description == "" && userEmail == "" && !isSubmitting
    {
      feedbackType, description, userEmail, isSubmitting := "", "", "", false;
    }

    /** The first half of `handleSubmit`: nothing happens unless the guard holds. */
    method BeginSubmit(isoNow: string) returns (report: Option<Feedback>)
      modifies this
      ensures feedbackType == old(feedbackType) && description == old(description) && userEmail == old(userEmail)
      ensures report.Some? <==> CanSubmit(feedbackType, description)
      ensures report.Some? ==> report.value == FeedbackOf(feedbackType, description, userEmail, isoNow) && isSubmitting
      ensures report.None? ==> isSubmitting == old(isSubmitting)
    {
      if feedbackType == "" || Blank(description) || |description| > MaxLength {
        return None;
      }
      isSubmitting := true;
      report := Some(FeedbackOf(feedbackType, description, userEmail, isoNow));
    }

    /** The second half: a report that went through clears the form and closes the modal; a failure keeps it. */
    method FinishSubmit(succeeded: bool) returns (closed: bool)
      modifies this
      ensures !isSubmitting && closed == succeeded
      ensures succeeded ==> feedbackType == "" && description == "" && userEmail == ""
      ensures !succeeded ==> feedbackType == old(feedbackType) && description == old(description) && userEmail == old(userEmail)
    {
      closed := false;
      if succeeded {
        feedbackType, description, userEmail := "", "", "";
        closed := true;
      }
      isSubmitting := false;
    }

    /** `handleClose`: ignored while a report is being sent. */
    method HandleClose() returns (closed: bool)
      modifies this
      ensures closed == !old(isSubmitting) && isSubmitting == old(isSubmitting)
      ensures closed ==> feedbackType == "" && description == "" && userEmail == ""
      ensures !closed ==> feedbackType == old(feedbackType) && description == old(description) && userEmail == old(userEmail)
    {
      closed := false;
      if !isSubmitting {
        feedbackType, description, userEmail := "", "", "";
        closed := true;
      }
    }
  }
}
