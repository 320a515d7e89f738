/**
 * The daily entry form: a free text and one of eight emotions. Submitting
 * checks that both are filled in, inserts the entry, and on success clears the
 * form and asks the entries list to refresh.
 *
 * `handleSubmit` is asynchronous with one `await`; it is modelled as `Submit`
 * (everything up to the insert request) and `Settle` (everything after the
 * backend answers, including the `finally`), and `HandleSubmit` runs both.
 */
module DailyEntryForm {
  import opened Wrappers
  import opened JsText
  import opened FormSubmission

  datatype Emotion = Emotion(value: string, caption: string)

  /** The emotion buttons, in display order. */
  const Emotions: seq<Emotion> := [
    Emotion("feliz", "Feliz"),
    Emotion("triste", "Triste"),
    Emotion("ansioso", "Ansioso"),
    Emotion("calmo", "Calmo"),
    Emotion("irritado", "Irritado"),
    Emotion("animado", "Animado"),
    Emotion("cansado", "Cansado"),
    Emotion("grato", "Grato")
  ]

  predicate IsEmotionValue(v: string) {
    exists i :: 0 <= i < |Emotions| && Emotions[i].value == v
  }

  /** The row sent to the `daily_entries` table. */
  datatype DailyEntryInsert = DailyEntryInsert(userId: string, texto: string, emocao: string)

  const MissingFields := "Por favor, preencha todos os campos"
  const Saved := "Registro salvo com sucesso!"
  const SaveFailed := "Erro ao salvar registro"
  const RefreshEntries := "refreshEntries"

  /**
   * The guard `!texto.trim() || !emocao`, negated: the text has a character
   * other than white space and an emotion is chosen.
   */
  predicate CanSubmit(texto: string, emocao: string): (ok: bool)
    ensures ok <==> (exists i :: 0 <= i < |texto| && !IsWhitespace(texto[i])) && emocao != ""
  {
    !IsBlank(texto) && emocao != ""
  }

  class EntryForm {
    const userId: string
    var texto: string
    var emocao: string
    var loading: bool
    var effects: seq<Effect<DailyEntryInsert>>

    /** The emotion is unset or one of the buttons' values. */
    ghost predicate Valid()
      reads this
    {
      emocao == "" || IsEmotionValue(emocao)
    }

    constructor (userId: string)
      ensures Valid() && this.userId == userId
      ensures texto == "" && emocao == "" && !loading && effects == []
    {
      this.userId := userId;
      texto, emocao, loading, effects := "", "", false, [];
    }

    /** The text area's `onChange`. */
    method ChangeTexto(value: string)
      requires Valid()
      modifies this
      ensures Valid() && texto == value
      ensures emocao == old(emocao) && loading == old(loading) && effects == old(effects)
    {
      texto := value;
    }

    /** Clicking the button of emotion `i`. */
    method ChooseEmotion(i: nat)
      requires Valid() && i < |Emotions|
      modifies this
      ensures Valid() && emocao == Emotions[i].value && IsEmotionValue(emocao)
      ensures texto == old(texto) && loading == old(loading) && effects == old(effects)
    {
      emocao := Emotions[i].value;
    }

    /**
     * `handleSubmit` up to the `await`: a blank field shows an error and stops,
     * touching nothing else; otherwise `loading` is set and the untrimmed fields
     * are sent.
     */
    method Submit() returns (request: Option<DailyEntryInsert>)
      requires Valid()
      modifies this
      ensures Valid() && texto == old(texto) && emocao == old(emocao)
      ensures request.Some? <==> CanSubmit(old(texto), old(emocao))
      ensures request.None? ==> loading == old(loading) && effects == old(effects) + [ToastError(MissingFields)]
      ensures request.Some? ==>
        && request.value == DailyEntryInsert(userId, texto, emocao)
        && loading
        && effects == old(effects) + [Insert(request.value)]
    {
      if !CanSubmit(texto, emocao) {
        effects := effects + [ToastError(MissingFields)];
        return None;
      }
      loading := true;
      var row := DailyEntryInsert(userId, texto, emocao);
      effects := effects + [Insert(row)];
      request := Some(row);
    }

    /**
     * `handleSubmit` after the backend answers: on success the form is cleared
     * and one refresh event is sent, on an error the fields stay; either way
     * `loading` ends false.
     */
    method Settle(outcome: InsertOutcome)
      requires Valid() && loading
      modifies this
      ensures Valid() && !loading
      ensures outcome.InsertOk? ==>
        && texto == "" && emocao == ""
        && effects == old(effects) + [ToastSuccess(Saved), Dispatch(RefreshEntries)]
      ensures outcome.InsertError? ==>
        && texto == old(texto) && emocao == old(emocao)
        && effects == old(effects) + [ToastError(FailureMessage(outcome.message, SaveFailed))]
    {
      match outcome {
        case InsertOk =>
          effects := effects + [ToastSuccess(Saved)];
          texto := "";
          emocao := "";
          effects := effects + [Dispatch(RefreshEntries)];
        case InsertError(message) =>
          effects := effects + [ToastError(FailureMessage(message, SaveFailed))];
      }
      loading := false;
    }

    /** The whole of `handleSubmit`, with the backend answering `outcome`. */
    method HandleSubmit(outcome: InsertOutcome)
      requires Valid()
      modifies this
      ensures Valid()
      ensures !CanSubmit(old(texto), old(emocao)) ==>
        && texto == old(texto) && emocao == old(emocao) && loading == old(loading)
        && effects == old(effects) + [ToastError(MissingFields)]
      ensures CanSubmit(old(texto), old(emocao)) ==> !loading
      ensures CanSubmit(old(texto), old(emocao)) && outcome.InsertOk? ==>
        && texto == "" && emocao == ""
        && effects == old(effects) + [Insert(DailyEntryInsert(userId, old(texto), old(emocao))),
                                      ToastSuccess(Saved), Dispatch(RefreshEntries)]
      ensures CanSubmit(old(texto), old(emocao)) && outcome.InsertError? ==>
        && texto == old(texto) && emocao == old(emocao)
        && effects == old(effects) + [Insert(DailyEntryInsert(userId, old(texto), old(emocao))),
                                      ToastError(FailureMessage(outcome.message, SaveFailed))]
    {
      var request := Submit();
      if request.Some? {
        Settle(outcome);
      }
    }
  }
}
