/**
 * The entry form (components/PainForm.tsx): its state `bodyPart`,
 * `painLevel`, `isSubmitting` and `error`, the two inputs that change it,
 * and `handleSubmit`, which validates, builds the entry, hands it to the
 * provider's add and then resets or reports.
 *
 * `uuidv4()` and `Date.now()` are the parameters `freshId` and `now`.
 * `addRejects` says whether something inside the `try` throws: `uuidv4()`
 * failing (it throws when no secure random source is available) or the
 * awaited add rejecting. The provider's own add
 * (context/PainContext.tsx:50-52) never rejects.
 */
module PainForm {
  import opened Entries
  import Text
  import PainSlider
  import PainContext
  import Storage

  const InitialPainLevel: int := 5
  const BlankBodyPartError: string := "Please enter a body part"
  const SaveFailedError: string := "Failed to save entry. Please try again."

  class Form {
    var bodyPart: string
    var painLevel: int
    var isSubmitting: bool
    var error: string
    const context: PainContext.PainProvider

    /** Between events the level is one the slider offers and no submit is
        in flight (the button is disabled while one is). */
    predicate Valid()
      reads this
    {
      InLevelRange(painLevel) && !isSubmitting
    }

    /** Mounting the form inside a provider (PainForm.tsx:18-22). */
    constructor (context: PainContext.PainProvider)
      ensures Valid()
      ensures this.context == context
      ensures bodyPart == "" && painLevel == InitialPainLevel && !isSubmitting && error == ""
    {
      this.context := context;
      bodyPart := "";
      painLevel := InitialPainLevel;
      isSubmitting := false;
      error := "";
    }

    /** The text input's `onChangeText={setBodyPart}` (PainForm.tsx:72). */
    method ChangeBodyPart(text: string)
      modifies this`bodyPart
      ensures bodyPart == text
    {
      bodyPart := text;
    }

    /** A press on segment `idx` of the default 0..10 slider, whose
        `onChange` is `setPainLevel` (PainForm.tsx:87). */
    method PressSegment(idx: nat)
      requires Valid()
      requires idx < PainSlider.SegmentCount(PainSlider.DefaultMin, PainSlider.DefaultMax)
      modifies this`painLevel
      ensures Valid()
      ensures painLevel == PainSlider.Segments(PainSlider.DefaultMin, PainSlider.DefaultMax, old(painLevel))[idx].value
    {
      painLevel := PainSlider.HandlePress(PainSlider.DefaultMin, PainSlider.DefaultMax, painLevel, idx);
    }

    /** `handleSubmit` (PainForm.tsx:24-59). */
    method HandleSubmit(freshId: string, now: int, addRejects: bool, writeFails: bool)
      requires Valid()
      modifies this, context, context.store
      ensures Valid()
      // A blank body part: only the error changes.
      ensures Text.Trim(old(bodyPart)) == [] ==>
                && error == BlankBodyPartError
                && bodyPart == old(bodyPart) && painLevel == old(painLevel)
                && unchanged(context) && unchanged(context.store)
      // The `try` throws: the error is reported and the fields are kept.
      ensures Text.Trim(old(bodyPart)) != [] && addRejects ==>
                && error == SaveFailedError
                && bodyPart == old(bodyPart) && painLevel == old(painLevel)
                && unchanged(context) && unchanged(context.store)
      // The `try` completes: one entry appended, the form reset, no error, and a
      // failed background save is not reported.
      ensures Text.Trim(old(bodyPart)) != [] && !addRejects ==>
                && error == ""
                && bodyPart == "" && painLevel == InitialPainLevel
                && context.painEntries ==
                     old(context.painEntries) + [Entry(freshId, Text.Trim(old(bodyPart)), old(painLevel), now)]
                && context.isInitialized == old(context.isInitialized)
                && context.store.items ==
                     if context.isInitialized
                     then Storage.AfterSave(old(context.store.items), context.painEntries, writeFails)
                     else old(context.store.items)
    {
      error := "";
      var trimmed := Text.Trim(bodyPart);
      if trimmed == [] {
        error := BlankBodyPartError;
        return;
      }
      Save(Entry(freshId, trimmed, painLevel, now), addRejects, writeFails);
    }

    /** The `try`/`catch`/`finally` part of `handleSubmit` (PainForm.tsx:33-58):
        await the add, then reset the form, or report the failure when
        something in the `try` throws. */
    method Save(newEntry: Entry, addRejects: bool, writeFails: bool)
      requires Valid()
      modifies this, context, context.store
      ensures Valid()
      ensures addRejects ==>
                && error == SaveFailedError
                && bodyPart == old(bodyPart) && painLevel == old(painLevel)
                && unchanged(context) && unchanged(context.store)
      ensures !addRejects ==>
                && error == old(error)
                && bodyPart == "" && painLevel == InitialPainLevel
                && context.painEntries == old(context.painEntries) + [newEntry]
                && context.isInitialized == old(context.isInitialized)
                && context.store.items ==
                     if context.isInitialized
                     then Storage.AfterSave(old(context.store.items), context.painEntries, writeFails)
                     else old(context.store.items)
    {
      isSubmitting := true;
      if addRejects {
        error := SaveFailedError;
      } else {
        context.Add(newEntry, writeFails);
        bodyPart := "";
        painLevel := InitialPainLevel;
      }
      isSubmitting := false;
    }
  }

  /** The entry a valid submit builds has a non-blank, trimmed body part and
      a level in the documented range. */
  lemma SubmittedEntryWellFormed(bodyPart: string, painLevel: int, freshId: string, now: int)
    requires !Text.IsBlank(bodyPart) && InLevelRange(painLevel)
    ensures var e := Entry(freshId, Text.Trim(bodyPart), painLevel, now);
            && e.bodyPart != []
            && !Text.IsWhitespace(e.bodyPart[0]) && !Text.IsWhitespace(e.bodyPart[|e.bodyPart| - 1])
            && InLevelRange(e.painLevel)
  {
  }
}
