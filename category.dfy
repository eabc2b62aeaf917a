/** The category record (`Category.swift`) and the four built-in categories. */
module CategoryModel {
  import opened Foundation

  datatype Category = Category(id: Uuid, name: string, emoji: string, color: string)

  /**
   * `Category.init(name:emoji:color:)`. The identifier is not a parameter of
   * the initializer: it is the fresh `UUID()` every construction draws, here
   * handed in as `freshId`.
   */
  function NewCategory(freshId: Uuid, name: string, emoji: string := "📁", color: string := "#007AFF"): Category {
    Category(freshId, name, emoji, color)
  }

  lemma CategoryInitDefaults(freshId: Uuid, name: string, emoji: string, color: string)
    ensures NewCategory(freshId, name) == Category(freshId, name, "📁", "#007AFF")
    ensures var c := NewCategory(freshId, name, emoji, color);
      c.id == freshId && c.name == name && c.emoji == emoji && c.color == color
  {
  }

  /**
   * The identifiers `Category.defaultCategories` drew when it was first
   * evaluated: a `static let` is evaluated once, so they are the same on every
   * use during a run.
   */
  const PersonalId: Uuid := 1
  const WorkId: Uuid := 2
  const HealthId: Uuid := 3
  const LearningId: Uuid := 4

  /** `Category.defaultCategories` */
  function DefaultCategories(): (r: seq<Category>)
    ensures |r| == 4
    ensures forall i, j :: 0 <= i < j < |r| ==> r[i].id != r[j].id && r[i].name != r[j].name
  {
    [
      NewCategory(PersonalId, "Personal", "👤", "#FF2D55"),
      NewCategory(WorkId, "Work", "💼", "#5856D6"),
      NewCategory(HealthId, "Health", "❤️", "#FF9500"),
      NewCategory(LearningId, "Learning", "📚", "#34C759")
    ]
  }

  /** The names of the built-in categories, in order. */
  function DefaultNames(): (r: seq<string>)
    ensures r == ["Personal", "Work", "Health", "Learning"]
  {
    var d := DefaultCategories();
    [d[0].name, d[1].name, d[2].name, d[3].name]
  }

  /** True when `name` is the name of one of the built-in categories. */
  predicate IsDefaultName(name: string) {
    exists d :: d in DefaultCategories() && d.name == name
  }

  lemma IsDefaultNameExactly(name: string)
    ensures IsDefaultName(name) <==> name in DefaultNames()
  {
    var d := DefaultCategories();
    if name in DefaultNames() {
      assert d[0].name == name || d[1].name == name || d[2].name == name || d[3].name == name;
    }
  }
}
