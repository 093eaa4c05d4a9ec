/** The quest screen: a static catalog of quizzes, one quiz session
    (`selectedQuest`, `currentQuestionIndex`) and the completion map
    `id -> true` that is persisted under `completedQuests`. */
module Quests {
  import opened Wrappers
  import opened Events
  import opened Store

  /** A multiple-choice question. Its prompt is display text only and is not
      part of the model. */
  datatype Question = Question(options: seq<string>, correctAnswer: string)

  /** A quest of the catalog. Its description and card image are display
      text only and are not part of the model. */
  datatype Quest = Quest(id: string, title: string, questions: seq<Question>)

  /** Every quest of the catalog has this many questions. */
  const QuestionsPerQuest: nat := 2

  predicate WellFormedQuest(q: Quest) {
    && |q.questions| == QuestionsPerQuest
    && forall i :: 0 <= i < |q.questions| ==> q.questions[i].correctAnswer in q.questions[i].options
  }

  function CatalogIds(): (ids: set<string>) {
    {"1", "2", "3", "4", "5", "6"}
  }

  /** Six quests with distinct ids "1".."6", each well formed. */
  predicate ValidCatalog(qs: seq<Quest>) {
    && |qs| == 6
    && (forall i :: 0 <= i < |qs| ==> WellFormedQuest(qs[i]) && qs[i].id in CatalogIds())
    && (forall i, j :: 0 <= i < j < |qs| ==> qs[i].id != qs[j].id)
  }

  /** The `quests` reference data of the screen, one function per quest. */
  function Catalog(): (qs: seq<Quest>)
    ensures ValidCatalog(qs)
  {
    [WaterfallExplorer(), EcoProtector(), WildlifeObserver(), SurvivalSkills(), GreenEnergy(), ClimateChangeAwareness()]
  }

  function WaterfallExplorer(): (q: Quest)
    ensures WellFormedQuest(q) && q.id == "1"
  {
    Quest("1", "Waterfall Explorer",
        [ Question(["USA & Canada", "Brazil", "Venezuela", "Norway"], "USA & Canada"),
          Question(["Iguazu Falls", "Angel Falls", "Victoria Falls", "Yosemite Falls"], "Angel Falls") ])
  }

  function EcoProtector(): (q: Quest)
    ensures WellFormedQuest(q) && q.id == "2"
  {
    Quest("2", "Eco Protector",
        [ Question(["Recycle", "Throw away", "Burn it", "Bury it"], "Recycle"),
          Question(["Plastic", "Glass", "Paper", "Metal"], "Paper") ])
  }

  function WildlifeObserver(): (q: Quest)
    ensures WellFormedQuest(q) && q.id == "3"
  {
    Quest("3", "Wildlife Observer",
        [ Question(["Lion", "Otter", "Giraffe", "Zebra"], "Otter"),
          Question(["Eagle", "Kingfisher", "Parrot", "Owl"], "Kingfisher") ])
  }

  function SurvivalSkills(): (q: Quest)
    ensures WellFormedQuest(q) && q.id == "4"
  {
    Quest("4", "Survival Skills",
        [ Question(["Drink from a river", "Collect rainwater", "Use ocean water", "Melt ice"], "Collect rainwater"),
          Question(["Use wet wood", "Use a magnifying glass", "Use dry grass and a spark", "Wait for lightning"],
            "Use dry grass and a spark") ])
  }

  function GreenEnergy(): (q: Quest)
    ensures WellFormedQuest(q) && q.id == "5"
  {
    Quest("5", "Green Energy",
        [ Question(["Coal", "Nuclear", "Solar", "Gas"], "Solar"),
          Question(["It is unlimited", "It creates pollution", "It uses a lot of land", "It requires fuel"],
            "It is unlimited") ])
  }

  function ClimateChangeAwareness(): (q: Quest)
    ensures WellFormedQuest(q) && q.id == "6"
  {
    Quest("6", "Climate Change Awareness",
        [ Question(["Deforestation", "Volcanoes", "Solar flares", "Overfishing"], "Deforestation"),
          Question(["Oxygen", "Carbon dioxide", "Hydrogen", "Methane"], "Carbon dioxide") ])
  }

  /** A quest that has the shape every catalog quest has. */
  predicate CatalogShaped(q: Quest) {
    WellFormedQuest(q) && q.id in CatalogIds()
  }

  /** A quest offered by the list screen has exactly two questions, each
      with its correct answer among its options, and a catalog id. */
  lemma CatalogQuest(q: Quest)
    requires q in Catalog()
    ensures CatalogShaped(q)
  {
    var qs := Catalog();
    var i :| 0 <= i < |qs| && qs[i] == q;
    assert WellFormedQuest(qs[i]);
  }

  /** Every recorded completion is `true` and names a catalog quest. */
  predicate CompletionsOk(m: map<string, bool>) {
    forall k :: k in m ==> m[k] && k in CatalogIds()
  }

  /** The stored completion map, when present, has that shape. */
  predicate StoredCompletionsOk(data: map<string, Value>) {
    CompletedQuestsKey in data ==>
      data[CompletedQuestsKey].CompletionMap? && CompletionsOk(data[CompletedQuestsKey].completed)
  }

  /** `{...completedQuests, [id]: true}`: one entry added or kept, nothing
      removed, nothing set false. */
  function CompletionAfter(m: map<string, bool>, id: string): (r: map<string, bool>)
    ensures r.Keys == m.Keys + {id}
    ensures id in r && r[id]
    ensures forall k :: k in m && k != id ==> r[k] == m[k]
    ensures id in m && m[id] ==> r == m
  {
    m[id := true]
  }

  /** Only catalog ids are ever added as completed. */
  lemma CompletionAfterOk(m: map<string, bool>, q: Quest)
    requires CompletionsOk(m) && CatalogShaped(q)
    ensures CompletionsOk(CompletionAfter(m, q.id))
  {
  }

  class QuestsScreen {
    const store: KvStore
    var selected: Option<Quest>
    var questionIndex: nat
    var completed: map<string, bool>

    /** The session refers to a catalog quest, and the index is below the
        question count that every catalog quest shares. The index is kept
        in range even with no quest selected, since neither selection nor
        exit resets it. */
    ghost predicate Valid()
      reads this
    {
      && questionIndex < QuestionsPerQuest
      && (selected.Some? ==> CatalogShaped(selected.value))
    }

    constructor (store: KvStore)
      ensures Valid()
      ensures this.store == store
      ensures selected == None && questionIndex == 0 && completed == map[]
    {
      this.store := store;
      selected := None;
      questionIndex := 0;
      completed := map[];
    }

    /** While a quest is selected its current question exists. */
    lemma IndexInRange()
      requires Valid()
      ensures selected.Some? ==> questionIndex < |selected.value.questions|
    {
    }

    /** The question shown while a quest is selected. */
    function Current(): (q: Question)
      reads this
      requires Valid() && selected.Some?
      ensures q in selected.value.questions
      ensures q.correctAnswer in q.options
    {
      selected.value.questions[questionIndex]
    }

    /** `loadCompletedQuests`: the map is replaced only when the key holds
        a completion map; an absent key or a failed read keeps it. */
    method LoadCompleted(readSucceeds: bool)
      requires Valid()
      modifies this
      ensures Valid()
      ensures selected == old(selected) && questionIndex == old(questionIndex)
      ensures var r := if readSucceeds && CompletedQuestsKey in store.data then Some(store.data[CompletedQuestsKey]) else None;
              completed == if r.Some? && r.value.CompletionMap? then r.value.completed else old(completed)
      ensures StoredCompletionsOk(store.data) && CompletionsOk(old(completed)) ==> CompletionsOk(completed)
    {
      var r := store.GetItem(CompletedQuestsKey, readSucceeds);
      if r.Present? && r.value.CompletionMap? {
        completed := r.value.completed;
      }
    }

    /** `saveCompletedQuests`: the in-memory map follows the store, and only
        once the write has succeeded. */
    method SaveCompleted(updated: map<string, bool>, writeSucceeds: bool) returns (ok: bool)
      modifies this, store
      ensures ok == writeSucceeds
      ensures selected == old(selected) && questionIndex == old(questionIndex)
      ensures store.data == if ok then old(store.data)[CompletedQuestsKey := CompletionMap(updated)] else old(store.data)
      ensures completed == if ok then updated else old(completed)
    {
      ok := store.SetItem(CompletedQuestsKey, CompletionMap(updated), writeSucceeds);
      if ok {
        completed := updated;
      }
    }

    /** Pressing a quest card. The index is left as it was. */
    method Select(q: Quest)
      requires Valid() && q in Catalog()
      modifies this
      ensures Valid()
      ensures selected == Some(q)
      ensures questionIndex == old(questionIndex) && completed == old(completed)
    {
      CatalogQuest(q);
      selected := Some(q);
    }

    /** "Back to Quests". The index is left as it was. */
    method Back()
      requires Valid()
      modifies this
      ensures Valid()
      ensures selected == None
      ensures questionIndex == old(questionIndex) && completed == old(completed)
    {
      selected := None;
    }

    /** `handleAnswerSelection`. */
    method AnswerSelection(option: string, saveSucceeds: bool) returns (notice: Notice)
      requires Valid()
      modifies this, store
      ensures Valid()
      // no quest selected: nothing happens
      ensures old(selected).None? ==>
        notice == Quiet && unchanged(this) && unchanged(store)
      // a wrong option: the session and the completion map stay put
      ensures old(selected).Some? && option != old(Current()).correctAnswer ==>
        notice == IncorrectAnswer && unchanged(this) && unchanged(store)
      // a correct option with questions left: advance by exactly one
      ensures old(selected).Some? && option == old(Current()).correctAnswer
              && old(questionIndex) + 1 < |old(selected).value.questions| ==>
        && notice == Quiet
        && selected == old(selected) && questionIndex == old(questionIndex) + 1
        && completed == old(completed) && unchanged(store)
      // a correct last answer: record the completion, end the session
      ensures old(selected).Some? && option == old(Current()).correctAnswer
              && old(questionIndex) + 1 >= |old(selected).value.questions| ==>
        var updated := CompletionAfter(old(completed), old(selected).value.id);
        && notice == QuestCompleted
        && selected == None && questionIndex == 0
        && store.data == (if saveSucceeds then old(store.data)[CompletedQuestsKey := CompletionMap(updated)]
                          else old(store.data))
        && completed == (if saveSucceeds then updated else old(completed))
      // completion is monotonic and only ever records catalog quests
      ensures old(completed).Keys <= completed.Keys
      ensures forall k :: k in old(completed) && old(completed)[k] ==> completed[k]
      ensures CompletionsOk(old(completed)) ==> CompletionsOk(completed)
      ensures StoredCompletionsOk(old(store.data)) && CompletionsOk(old(completed)) ==> StoredCompletionsOk(store.data)
    {
      if selected.None? {
        return Quiet;
      }
      var question := Current();
      if option == question.correctAnswer {
        if questionIndex + 1 < |selected.value.questions| {
          questionIndex := questionIndex + 1;
          notice := Quiet;
        } else {
          var quest := selected.value;
          var updated := CompletionAfter(completed, quest.id);
          if CompletionsOk(completed) {
            CompletionAfterOk(completed, quest);
          }
          var _ := SaveCompleted(updated, saveSucceeds);
          selected := None;
          questionIndex := 0;
          notice := QuestCompleted;
        }
      } else {
        notice := IncorrectAnswer;
      }
    }
  }
}
