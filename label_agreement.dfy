/**
 * The exported document and the forms name the same moods and categories:
 * the mood column shows exactly the emotion button's caption, and the category
 * column shows exactly the picker's caption for every value the picker offers.
 */
module LabelAgreement {
  import opened JsText
  import opened PdfExport
  import DailyEntryForm
  import TimelineEventForm

  /** Capitalising a stored emotion value gives that button's caption. */
  lemma EmotionCaptionsAreCapitalisedValues()
    ensures forall i :: 0 <= i < |DailyEntryForm.Emotions| ==>
      Capitalize(DailyEntryForm.Emotions[i].value) == DailyEntryForm.Emotions[i].caption
  {
    forall i | 0 <= i < |DailyEntryForm.Emotions|
      ensures Capitalize(DailyEntryForm.Emotions[i].value) == DailyEntryForm.Emotions[i].caption
    {
      var e := DailyEntryForm.Emotions[i];
      CapitalisedAs(e.value, e.caption);
    }
  }

  /** A caption that differs from the value only by an upper-cased first letter is its capitalisation. */
  lemma CapitalisedAs(value: string, caption: string)
    requires value != [] && |caption| == |value|
    requires caption[0] == UpperAscii(value[0]) && caption[1..] == value[1..]
    ensures Capitalize(value) == caption
  {
    assert caption == [caption[0]] + caption[1..];
  }

  /** The mood cell of an entry saved from the form reads as the chosen button's caption. */
  lemma MoodCellIsEmotionCaption(e: Entry, i: nat)
    requires i < |DailyEntryForm.Emotions| && e.emocao == DailyEntryForm.Emotions[i].value
    ensures DiaryRow(e)[1] == DailyEntryForm.Emotions[i].caption
  {
    EmotionCaptionsAreCapitalisedValues();
  }

  /** The export's label table has an entry for exactly the picker's values. */
  lemma CategoryLabelsCoverPicker()
    ensures forall v :: v in CategoryLabels <==> TimelineEventForm.IsCategoryValue(v)
  {
    forall v | v in CategoryLabels
      ensures TimelineEventForm.IsCategoryValue(v)
    {
      var i :=
        if v == "infancia" then 0 else if v == "adolescencia" then 1
        else if v == "vida_adulta" then 2 else if v == "relacionamentos" then 3
        else if v == "carreira" then 4 else if v == "saude" then 5 else 6;
      assert TimelineEventForm.Categories[i].value == v;
    }
  }

  /** Every picker value is exported as that option's caption. */
  lemma CategoryCaptionsAgree()
    ensures forall i :: 0 <= i < |TimelineEventForm.Categories| ==>
      CategoryLabel(TimelineEventForm.Categories[i].value) == TimelineEventForm.Categories[i].caption
  {
  }

  /** The category cell of an event saved from the form reads as the chosen option's caption. */
  lemma CategoryCellIsPickerCaption(ev: TimelineEvent, i: nat)
    requires i < |TimelineEventForm.Categories| && ev.categoria == TimelineEventForm.Categories[i].value
    ensures TimelineRow(ev)[1] == TimelineEventForm.Categories[i].caption
  {
    CategoryCaptionsAgree();
  }
}
