/** Client runs over the screen models, one per behaviour the app shows
    across several handlers or several screens. Each builds fresh screens
    over a fresh store and states the outcome. */
module Scenarios {
  import opened Wrappers
  import opened Events
  import opened Store
  import opened Quests
  import opened Albums
  import opened Waterfalls
  import opened Profile
  import opened Home

  /** Quest "1" answered "USA & Canada" and then "Angel Falls" is recorded
      as completed, in memory and in the store. */
  method CompleteFirstQuest() returns (indexAfterFirst: nat, first: Notice, second: Notice, done: map<string, bool>, stored: Read)
    ensures indexAfterFirst == 1 && first == Quiet
    ensures second == QuestCompleted && done == map["1" := true]
    ensures stored == Present(CompletionMap(map["1" := true]))
  {
    var store := new KvStore(map[]);
    var screen := new QuestsScreen(store);
    screen.Select(WaterfallExplorer());
    first := screen.AnswerSelection("USA & Canada", true);
    indexAfterFirst := screen.questionIndex;
    second := screen.AnswerSelection("Angel Falls", true);
    done := screen.completed;
    stored := store.GetItem(CompletedQuestsKey, true);
  }

  /** A wrong option and an answer with no quest selected change nothing. */
  method WrongAnswerStaysPut() returns (noQuest: Notice, wrong: Notice, index: nat, done: map<string, bool>)
    ensures noQuest == Quiet && wrong == IncorrectAnswer
    ensures index == 0 && done == map[]
  {
    var store := new KvStore(map[]);
    var screen := new QuestsScreen(store);
    noQuest := screen.AnswerSelection("Recycle", true);
    screen.Select(EcoProtector());
    wrong := screen.AnswerSelection("Burn it", true);
    index := screen.questionIndex;
    done := screen.completed;
  }

  /** Leaving a quest after its first answer and then picking another one
      starts that quest at its second question. */
  method ExitKeepsQuestionIndex() returns (index: nat, expected: string)
    ensures index == 1 && expected == "Paper"
  {
    var store := new KvStore(map[]);
    var screen := new QuestsScreen(store);
    screen.Select(WaterfallExplorer());
    var _ := screen.AnswerSelection("USA & Canada", true);
    screen.Back();
    screen.Select(EcoProtector());
    index := screen.questionIndex;
    expected := screen.Current().correctAnswer;
  }

  /** A failed write of the completion map leaves it unrecorded in memory
      and in the store, yet the session still ends. */
  method CompletionWriteFails() returns (notice: Notice, ended: bool, done: map<string, bool>, stored: Read)
    ensures notice == QuestCompleted && ended
    ensures done == map[] && stored == Absent
  {
    var store := new KvStore(map[]);
    var screen := new QuestsScreen(store);
    screen.Select(GreenEnergy());
    var _ := screen.AnswerSelection("Solar", true);
    notice := screen.AnswerSelection("It is unlimited", false);
    ended := screen.selected.None? && screen.questionIndex == 0;
    done := screen.completed;
    stored := store.GetItem(CompletedQuestsKey, true);
  }

  /** A non-numeric latitude is refused before the list or the store change. */
  method NonNumericLatitude() returns (notice: Notice, count: nat, stored: Read)
    ensures notice == InvalidCoordinates && count == 2 && stored == Absent
  {
    var store := new KvStore(map[]);
    var screen := new MapScreen(store);
    var parse := (s: string) => if s == "43.1" then Some(43.1 as real) else None;
    screen.form := Form("Falls", "Nice", "north", "43.1", "file://falls.jpg");
    notice := screen.AddCustomWaterfall(1700000000000, parse, true);
    count := |screen.waterfalls|;
    stored := store.GetItem(CustomWaterfallsKey, true);
  }

  /** The avatar is not written while it is null, so a reload brings back
      an avatar that was stored earlier. */
  method SaveWithoutAvatarThenLoad() returns (before: Option<string>, after: Option<string>)
    ensures before == None && after == Some("file://old.jpg")
  {
    var store := new KvStore(map[ProfileAvatarKey := Text("file://old.jpg")]);
    var screen := new ProfileScreen(store);
    var _ := screen.LoadProfile(true, true, false);
    before := screen.avatar;
    var _ := screen.SaveProfile(true, true, true);
    var _ := screen.LoadProfile(true, true, true);
    after := screen.avatar;
  }

  /** Loading right after a successful save keeps name and last name, and
      keeps the avatar unless it was unset while an older one is stored. */
  method SaveThenLoad(screen: ProfileScreen)
    modifies screen, screen.store
    ensures screen.name == old(screen.name) && screen.lastName == old(screen.lastName)
    ensures HasAvatar(old(screen.avatar)) || StoredText(old(screen.store.data), ProfileAvatarKey).None? ==>
      screen.avatar == old(screen.avatar)
  {
    var _ := screen.SaveProfile(true, true, true);
    var _ := screen.LoadProfile(true, true, true);
  }

  /** Logout empties the store for every screen; the other screens keep
      what they showed until they next read a stored value. */
  method LogoutClearsEveryScreen() returns (photos: seq<string>, count: nat, cleared: bool)
    ensures photos == ["file://a.jpg"] && count == 1 && cleared
  {
    var store := new KvStore(map[
      AlbumPhotosKey := UriList(["file://a.jpg"]),
      CompletedQuestsKey := CompletionMap(map["3" := true])]);
    var albums := new AlbumsScreen(store);
    var home := new HomeScreen(store);
    var profile := new ProfileScreen(store);
    var _ := albums.LoadPhotos(true);
    home.LoadCompleted(true);
    var _ := profile.Logout(true);
    cleared := store.data == map[];
    var _ := albums.LoadPhotos(true);
    home.LoadCompleted(true);
    photos := albums.photos;
    count := home.completedCount;
  }

  /** The quest screen reads the completion map only when it is first
      shown, so a completion after a logout writes the cleared entries
      back. */
  method CompletionAfterLogout() returns (stored: Read)
    ensures stored == Present(CompletionMap(map["1" := true, "2" := true]))
  {
    var store := new KvStore(map[CompletedQuestsKey := CompletionMap(map["1" := true])]);
    var quests := new QuestsScreen(store);
    var profile := new ProfileScreen(store);
    quests.LoadCompleted(true);
    var _ := profile.Logout(true);
    quests.Select(EcoProtector());
    var _ := quests.AnswerSelection("Recycle", true);
    var _ := quests.AnswerSelection("Paper", true);
    stored := store.GetItem(CompletedQuestsKey, true);
  }
}
