/**
 * The logic of the counter form and the category sheet
 * (`AddEditCounterView.swift`): loading a counter into the form, saving the
 * form as a new or an edited counter, and creating a category. The screens
 * are classes whose fields are the `@State` properties; the store they share
 * is `dataManager`.
 */
module AddEditCounter {
  import opened Wrappers
  import opened Foundation
  import opened Seqs
  import opened CounterModel
  import opened CategoryModel
  import opened StoreOps
  import opened AchievementRules
  import opened Managers

  /** The values of the form's fields, as one record. */
  datatype Form = Form(
    name: string,
    counterType: CounterType,
    targetDate: Date,
    startDate: Date,
    categoryId: Option<Uuid>,
    emoji: string,
    color: string,
    note: string,
    showProgress: bool,
    isPinned: bool,
    timeFormat: Option<TimeFormat>)

  /** `note.isEmpty ? nil : note`: the note field as the record stores it. */
  function NoteFromText(text: string): (r: Option<string>)
    ensures r.None? <==> text == ""
    ensures r.Some? ==> r.value == text
  {
    if text == "" then None else Some(text)
  }

  /** `counter.note ?? ""`: the stored note as the field shows it. */
  function TextFromNote(note: Option<string>): (r: string)
    ensures note.Some? ==> r == note.value
    ensures note.None? ==> r == ""
  {
    note.GetOr("")
  }

  /** Showing a note and reading it back loses only the difference between no note and an empty one. */
  lemma NoteRoundTrip(note: Option<string>, text: string)
    ensures TextFromNote(NoteFromText(text)) == text
    ensures NoteFromText(TextFromNote(note)) == if note == Some("") then None else note
  {
  }

  /** The form `onAppear` loads from a counter. */
  function FormOf(c: Counter): Form {
    Form(c.name, c.counterType, c.targetDate, c.startDate, c.categoryId, c.emoji, c.color,
         TextFromNote(c.note), c.showProgress, c.isPinned, c.timeFormat)
  }

  /** The edit branch of `saveCounter`: a copy of the counter with every form field written into it. */
  function EditedCounter(c: Counter, f: Form): Counter {
    c.(name := f.name, counterType := f.counterType, targetDate := f.targetDate, startDate := f.startDate,
       categoryId := f.categoryId, emoji := f.emoji, color := f.color, note := NoteFromText(f.note),
       showProgress := f.showProgress, isPinned := f.isPinned, timeFormat := f.timeFormat)
  }

  /** The create branch of `saveCounter`: a new counter from the form, with a fresh identifier, created now. */
  function CreatedCounter(f: Form, freshId: Uuid, now: Date): Counter {
    NewCounter(freshId, now, f.name, f.counterType, f.targetDate, startDate := f.startDate,
               categoryId := f.categoryId, emoji := f.emoji, color := f.color, note := NoteFromText(f.note),
               showProgress := f.showProgress, isPinned := f.isPinned, timeFormat := f.timeFormat)
  }

  /**
   * An edit keeps the counter's identifier and creation date and takes every
   * other field from the form: loading the edited counter gives back the
   * form, and two edits that agree on those two fields and the form agree.
   */
  lemma EditKeepsIdentity(c: Counter, f: Form)
    ensures EditedCounter(c, f).id == c.id && EditedCounter(c, f).createdDate == c.createdDate
    ensures FormOf(EditedCounter(c, f)) == f
    ensures forall d: Counter :: d.id == c.id && d.createdDate == c.createdDate ==> EditedCounter(d, f) == EditedCounter(c, f)
  {
  }

  /** Loading a counter and saving the form untouched gives the counter back, an empty note becoming none. */
  lemma EditRoundTrip(c: Counter)
    ensures EditedCounter(c, FormOf(c)) == c.(note := if c.note == Some("") then None else c.note)
    ensures c.note != Some("") ==> EditedCounter(c, FormOf(c)) == c
  {
    NoteRoundTrip(c.note, "");
  }

  /** A created counter carries the fresh identifier and the creation date, and loads back as the form. */
  lemma CreateRoundTrip(f: Form, freshId: Uuid, now: Date)
    ensures CreatedCounter(f, freshId, now).id == freshId && CreatedCounter(f, freshId, now).createdDate == now
    ensures FormOf(CreatedCounter(f, freshId, now)) == f
  {
    NoteRoundTrip(None, f.note);
  }

  /** `AddEditCounterView`: `counter` is the one being edited, or none when a counter is being created. */
  class AddEditCounterView {
    const dataManager: DataManager
    const counter: Option<Counter>

    var name: string
    var counterType: CounterType
    var targetDate: Date
    var startDate: Date
    var selectedCategoryId: Option<Uuid>
    var emoji: string
    var selectedColor: string
    var note: string
    var showProgress: bool
    var isPinned: bool
    var selectedTimeFormat: Option<TimeFormat>
    var newlyCreatedCategoryId: Option<Uuid>

    /** The form fields, as one record. */
    function Fields(): Form
      reads this
    {
      Form(name, counterType, targetDate, startDate, selectedCategoryId, emoji, selectedColor, note,
           showProgress, isPinned, selectedTimeFormat)
    }

    /** The `@State` initial values; `now` is the `Date()` the two date fields start at. */
    constructor(dataManager: DataManager, counter: Option<Counter>, now: Date)
      ensures this.dataManager == dataManager && this.counter == counter
      ensures Fields() == Form("", CountUntil, now, now, None, "📅", "#007AFF", "", true, false, None)
      ensures newlyCreatedCategoryId == None
    {
      this.dataManager := dataManager;
      this.counter := counter;
      name := "";
      counterType := CountUntil;
      targetDate := now;
      startDate := now;
      selectedCategoryId := None;
      emoji := "📅";
      selectedColor := "#007AFF";
      note := "";
      showProgress := true;
      isPinned := false;
      selectedTimeFormat := None;
      newlyCreatedCategoryId := None;
    }

    /** `isEditMode` */
    predicate IsEditMode()
      reads this
    {
      counter.Some?
    }

    /** The save button is enabled only while the name is not empty. */
    predicate SaveEnabled()
      reads this
    {
      name != ""
    }

    /** `onAppear`: in edit mode every field is loaded from the counter; otherwise the form stays as it is. */
    method OnAppear()
      modifies this
      ensures counter.Some? ==> Fields() == FormOf(counter.value)
      ensures counter.None? ==> Fields() == old(Fields())
      ensures newlyCreatedCategoryId == old(newlyCreatedCategoryId)
    {
      if counter.Some? {
        var c := counter.value;
        name := c.name;
        counterType := c.counterType;
        targetDate := c.targetDate;
        startDate := c.startDate;
        selectedCategoryId := c.categoryId;
        emoji := c.emoji;
        selectedColor := c.color;
        note := TextFromNote(c.note);
        showProgress := c.showProgress;
        isPinned := c.isPinned;
        selectedTimeFormat := c.timeFormat;
      }
    }

    /**
     * `saveCounter`: in edit mode the edited copy replaces the stored counter
     * with its identifier (`updateCounter`); otherwise a new counter is added
     * (`addCounter`), which runs the achievement check. `freshId` is the
     * `UUID()` a new counter draws and `now` the current date. The save
     * button, its only caller, is disabled while the name is empty.
     */
    method SaveCounter(freshId: Uuid, now: Date)
      requires SaveEnabled()
      modifies dataManager
      ensures counter.Some? ==>
        var edited := EditedCounter(counter.value, Fields());
        && dataManager.counters == ReplaceFirst(old(dataManager.counters), CounterIdIs(counter.value.id), edited)
        && dataManager.achievements == old(dataManager.achievements)
        && dataManager.stored == if FirstIndex(old(dataManager.counters), CounterIdIs(counter.value.id)).Some?
                                 then old(dataManager.stored).(counters := Some(dataManager.counters))
                                 else old(dataManager.stored)
      ensures counter.None? ==>
        && dataManager.counters == old(dataManager.counters) + [CreatedCounter(Fields(), freshId, now)]
        && dataManager.achievements
           == CheckAll(old(dataManager.achievements), dataManager.counters, dataManager.categories, now)
        && dataManager.stored.(achievements := old(dataManager.stored).achievements)
           == old(dataManager.stored).(counters := Some(dataManager.counters))
        && AchievementsKeySaved(old(dataManager.stored).achievements, dataManager.stored.achievements,
                                old(dataManager.achievements), dataManager.achievements)
      ensures dataManager.categories == old(dataManager.categories)
      ensures dataManager.settings == old(dataManager.settings)
    {
      if counter.Some? {
        var updatedCounter := counter.value;
        updatedCounter := updatedCounter.(name := name);
        updatedCounter := updatedCounter.(counterType := counterType);
        updatedCounter := updatedCounter.(targetDate := targetDate);
        updatedCounter := updatedCounter.(startDate := startDate);
        updatedCounter := updatedCounter.(categoryId := selectedCategoryId);
        updatedCounter := updatedCounter.(emoji := emoji);
        updatedCounter := updatedCounter.(color := selectedColor);
        updatedCounter := updatedCounter.(note := NoteFromText(note));
        updatedCounter := updatedCounter.(showProgress := showProgress);
        updatedCounter := updatedCounter.(isPinned := isPinned);
        updatedCounter := updatedCounter.(timeFormat := selectedTimeFormat);
        dataManager.UpdateCounter(updatedCounter);
      } else {
        var newCounter := NewCounter(freshId, now, name, counterType, targetDate, startDate := startDate,
                                     categoryId := selectedCategoryId, emoji := emoji, color := selectedColor,
                                     note := NoteFromText(note), showProgress := showProgress,
                                     isPinned := isPinned, timeFormat := selectedTimeFormat);
        dataManager.AddCounter(newCounter, now);
      }
    }

    /** The `AddCategoryView` callback: the new category becomes the selected one. */
    method CategoryCreated(newCategoryId: Uuid)
      modifies this
      ensures newlyCreatedCategoryId == Some(newCategoryId)
      ensures Fields() == old(Fields()).(categoryId := Some(newCategoryId))
    {
      newlyCreatedCategoryId := Some(newCategoryId);
      selectedCategoryId := Some(newCategoryId);
    }
  }

  /** `AddCategoryView`: the category sheet. */
  class AddCategoryView {
    const dataManager: DataManager

    var name: string
    var emoji: string
    var selectedColor: string

    constructor(dataManager: DataManager)
      ensures this.dataManager == dataManager
      ensures name == "" && emoji == "📁" && selectedColor == "#007AFF"
    {
      this.dataManager := dataManager;
      name := "";
      emoji := "📁";
      selectedColor := "#007AFF";
    }

    /**
     * The "Create" button. While the name is empty the button is disabled and
     * a tap does nothing; otherwise the new category, with the fresh
     * identifier `freshId`, is added to the store (which runs the achievement
     * check) and its identifier is what the callback receives.
     */
    method Create(freshId: Uuid, now: Date) returns (reported: Option<Uuid>)
      modifies dataManager
      ensures name == "" ==> reported == None && unchanged(dataManager)
      ensures name != "" ==>
        && reported == Some(freshId)
        && dataManager.categories == old(dataManager.categories) + [NewCategory(freshId, name, emoji, selectedColor)]
        && dataManager.achievements
           == CheckAll(old(dataManager.achievements), dataManager.counters, dataManager.categories, now)
        && dataManager.stored.(achievements := old(dataManager.stored).achievements)
           == old(dataManager.stored).(categories := Some(dataManager.categories))
        && AchievementsKeySaved(old(dataManager.stored).achievements, dataManager.stored.achievements,
                                old(dataManager.achievements), dataManager.achievements)
      ensures dataManager.counters == old(dataManager.counters)
      ensures dataManager.settings == old(dataManager.settings)
    {
      if name == "" {
        return None;
      }
      var category := NewCategory(freshId, name, emoji, selectedColor);
      dataManager.AddCategory(category, now);
      reported := Some(category.id);
    }
  }
}
