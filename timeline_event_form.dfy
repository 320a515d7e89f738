/**
 * The timeline event form: a category, a title and a description. Submitting
 * checks that all three are filled in, inserts the event, and on success clears
 * the form and asks the timeline list to refresh. As for the daily entry form,
 * the asynchronous `handleSubmit` is split at its `await` into `Submit` and
 * `Settle`.
 */
module TimelineEventForm {
  import opened Wrappers
  import opened JsText
  import opened FormSubmission

  datatype Category = Category(value: string, caption: string)

  /** The options of the category picker, in display order. */
  const Categories: seq<Category> := [
    Category("infancia", "Infância"),
    Category("adolescencia", "Adolescência"),
    Category("vida_adulta", "Vida Adulta"),
    Category("relacionamentos", "Relacionamentos"),
    Category("carreira", "Carreira"),
    Category("saude", "Saúde"),
    Category("outros", "Outros")
  ]

  predicate IsCategoryValue(v: string) {
    exists i :: 0 <= i < |Categories| && Categories[i].value == v
  }

  /** The row sent to the `timeline_events` table. */
  datatype TimelineEventInsert =
    TimelineEventInsert(userId: string, titulo: string, descricao: string, categoria: string)

  const MissingFields := "Por favor, preencha todos os campos"
  const Added := "Evento adicionado à linha do tempo!"
  const AddFailed := "Erro ao adicionar evento"
  const RefreshTimeline := "refreshTimeline"

  /**
   * The guard `!titulo.trim() || !descricao.trim() || !categoria`, negated:
   * title and description each have a character other than white space and a
   * category is chosen.
   */
  predicate CanSubmit(titulo: string, descricao: string, categoria: string): (ok: bool)
    ensures ok <==>
      && (exists i :: 0 <= i < |titulo| && !IsWhitespace(titulo[i]))
      && (exists i :: 0 <= i < |descricao| && !IsWhitespace(descricao[i]))
      && categoria != ""
  {
    !IsBlank(titulo) && !IsBlank(descricao) && categoria != ""
  }

  class EventForm {
    const userId: string
    var titulo: string
    var descricao: string
    var categoria: string
    var loading: bool
    var effects: seq<Effect<TimelineEventInsert>>

    /** The category is unset or one of the picker's values. */
    ghost predicate Valid()
      reads this
    {
      categoria == "" || IsCategoryValue(categoria)
    }

    constructor (userId: string)
      ensures Valid() && this.userId == userId
      ensures titulo == "" && descricao == "" && categoria == "" && !loading && effects == []
    {
      this.userId := userId;
      titulo, descricao, categoria, loading, effects := "", "", "", false, [];
    }

    /** The title input's `onChange`. */
    method ChangeTitulo(value: string)
      requires Valid()
      modifies this
      ensures Valid() && titulo == value
      ensures descricao == old(descricao) && categoria == old(categoria)
      ensures loading == old(loading) && effects == old(effects)
    {
      titulo := value;
    }

    /** The description text area's `onChange`. */
    method ChangeDescricao(value: string)
      requires Valid()
      modifies this
      ensures Valid() && descricao == value
      ensures titulo == old(titulo) && categoria == old(categoria)
      ensures loading == old(loading) && effects == old(effects)
    {
      descricao := value;
    }

    /** The picker's `onValueChange` for option `i`. */
    method ChooseCategory(i: nat)
      requires Valid() && i < |Categories|
      modifies this
      ensures Valid() && categoria == Categories[i].value && IsCategoryValue(categoria)
      ensures titulo == old(titulo) && descricao == old(descricao)
      ensures loading == old(loading) && effects == old(effects)
    {
      categoria := Categories[i].value;
    }

    /**
     * `handleSubmit` up to the `await`: a blank field shows an error and stops,
     * touching nothing else; otherwise `loading` is set and the untrimmed fields
     * are sent.
     */
    method Submit() returns (request: Option<TimelineEventInsert>)
      requires Valid()
      modifies this
      ensures Valid() && titulo == old(titulo) && descricao == old(descricao) && categoria == old(categoria)
      ensures request.Some? <==> CanSubmit(old(titulo), old(descricao), old(categoria))
      ensures request.None? ==> loading == old(loading) && effects == old(effects) + [ToastError(MissingFields)]
      ensures request.Some? ==>
        && request.value == TimelineEventInsert(userId, titulo, descricao, categoria)
        && loading
        && effects == old(effects) + [Insert(request.value)]
    {
      if !CanSubmit(titulo, descricao, categoria) {
        effects := effects + [ToastError(MissingFields)];
        return None;
      }
      loading := true;
      var row := TimelineEventInsert(userId, titulo, descricao, categoria);
      effects := effects + [Insert(row)];
      request := Some(row);
    }

    /**
     * `handleSubmit` after the backend answers: on success the form is cleared
     * and one refresh event is sent, on an error the fields stay; either way
     * `loading` ends false.
     */
    method Settle(outcome: InsertOutcome)
      requires Valid() && loading
      modifies this
      ensures Valid() && !loading
      ensures outcome.InsertOk? ==>
        && titulo == "" && descricao == "" && categoria == ""
        && effects == old(effects) + [ToastSuccess(Added), Dispatch(RefreshTimeline)]
      ensures outcome.InsertError? ==>
        && titulo == old(titulo) && descricao == old(descricao) && categoria == old(categoria)
        && effects == old(effects) + [ToastError(FailureMessage(outcome.message, AddFailed))]
    {
      match outcome {
        case InsertOk =>
          effects := effects + [ToastSuccess(Added)];
          titulo := "";
          descricao := "";
          categoria := "";
          effects := effects + [Dispatch(RefreshTimeline)];
        case InsertError(message) =>
          effects := effects + [ToastError(FailureMessage(message, AddFailed))];
      }
      loading := false;
    }

    /** The whole of `handleSubmit`, with the backend answering `outcome`. */
    method HandleSubmit(outcome: InsertOutcome)
      requires Valid()
      modifies this
      ensures Valid()
      ensures !CanSubmit(old(titulo), old(descricao), old(categoria)) ==>
        && titulo == old(titulo) && descricao == old(descricao) && categoria == old(categoria)
        && loading == old(loading)
        && effects == old(effects) + [ToastError(MissingFields)]
      ensures CanSubmit(old(titulo), old(descricao), old(categoria)) ==> !loading
      ensures CanSubmit(old(titulo), old(descricao), old(categoria)) && outcome.InsertOk? ==>
        && titulo == "" && descricao == "" && categoria == ""
        && effects == old(effects) + [Insert(TimelineEventInsert(userId, old(titulo), old(descricao), old(categoria))),
                                      ToastSuccess(Added), Dispatch(RefreshTimeline)]
      ensures CanSubmit(old(titulo), old(descricao), old(categoria)) && outcome.InsertError? ==>
        && titulo == old(titulo) && descricao == old(descricao) && categoria == old(categoria)
        && effects == old(effects) + [Insert(TimelineEventInsert(userId, old(titulo), old(descricao), old(categoria))),
                                      ToastError(FailureMessage(outcome.message, AddFailed))]
    {
      var request := Submit();
      if request.Some? {
        Settle(outcome);
      }
    }
  }
}
