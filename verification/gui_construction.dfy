/** How a chest menu of the plugin is constructed. The base class `GUI`
    calls the overridden `initializeItems` from its own constructor, and a
    Java object runs its superclass constructor before its own field
    initializers and constructor body. So `initializeItems` finds every
    field of the menu class still `null`, and its first dereference of one
    throws. This module models that order as written, and the order the
    menu classes of this model use: the fields first, then
    `initializeItems`. */
module GuiConstruction {

  /** The four menu classes. */
  datatype Menu = CategoryMenu | DungeonMenu | PreviewMenu | DropEditMenu

  /** The reference fields of the menu classes that `initializeItems`
      dereferences. */
  datatype Field =
    | SlotToCategoryMap | Categories          // CategorySelectionGUI
    | SlotToDungeonMap | Category             // DungeonSelectionGUI
    | PreviewDungeon                          // PreviewGUI
    | SlotToActionMap | SlotToDropMap | EditedDungeon | Mode   // DropEditGUI

  /** The stages of a constructor call: the superclass constructor (which
      calls `initializeItems`), the field initializers, and the rest of the
      constructor body. */
  datatype Stage = SuperConstructor | FieldInitializers | ConstructorBody

  datatype Outcome = Built | NullPointer(field: Field)

  /** The fields given a value by a field initializer (`= new HashMap<>()`). */
  function InitializedFields(menu: Menu): set<Field> {
    match menu
    case CategoryMenu => {SlotToCategoryMap}
    case DungeonMenu => {SlotToDungeonMap}
    case PreviewMenu => {}
    case DropEditMenu => {SlotToActionMap, SlotToDropMap}
  }

  /** The fields given a value by the constructor body after `super(...)`. */
  function BodyFields(menu: Menu): set<Field> {
    match menu
    case CategoryMenu => {Categories}
    case DungeonMenu => {Category}
    case PreviewMenu => {PreviewDungeon}
    case DropEditMenu => {EditedDungeon, Mode}
  }

  /** The fields `initializeItems` dereferences, in the order it first does. */
  function ReadOrder(menu: Menu): seq<Field> {
    match menu
    case CategoryMenu => [SlotToCategoryMap, Categories]
    case DungeonMenu => [SlotToDungeonMap, Category]
    case PreviewMenu => [PreviewDungeon]
    case DropEditMenu => [SlotToActionMap, SlotToDropMap, EditedDungeon, Mode]
  }

  /** The first field of `fields` that is still unassigned. */
  function FirstUnassigned(fields: seq<Field>, valued: set<Field>): (r: Outcome)
    ensures r == Built <==> forall k :: 0 <= k < |fields| ==> fields[k] in valued
    ensures r.NullPointer? ==>
      exists k :: 0 <= k < |fields| && fields[k] == r.field && r.field !in valued
        && forall j :: 0 <= j < k ==> fields[j] in valued
  {
    if fields == [] then Built
    else if fields[0] !in valued then NullPointer(fields[0])
    else FirstUnassigned(fields[1..], valued)
  }

  /** `initializeItems` with the fields in `valued` set: it completes
      exactly when every field it reads has a value, and otherwise throws
      at the first one that has none. */
  function InitializeItems(menu: Menu, valued: set<Field>): (r: Outcome)
    ensures r == Built <==> forall f :: f in ReadOrder(menu) ==> f in valued
  {
    FirstUnassigned(ReadOrder(menu), valued)
  }

  /** Runs the stages in order from the fields in `valued`; the first
      exception ends the construction. */
  function Construct(menu: Menu, stages: seq<Stage>, valued: set<Field>): Outcome
    decreases |stages|
  {
    if stages == [] then Built
    else match stages[0]
      case SuperConstructor =>
        (match InitializeItems(menu, valued)
         case Built => Construct(menu, stages[1..], valued)
         case NullPointer(f) => NullPointer(f))
      case FieldInitializers => Construct(menu, stages[1..], valued + InitializedFields(menu))
      case ConstructorBody => Construct(menu, stages[1..], valued + BodyFields(menu))
  }

  /** The order Java runs a subclass constructor in. */
  const JAVA_ORDER: seq<Stage> := [SuperConstructor, FieldInitializers, ConstructorBody]

  /** The order the menu classes of this model use. */
  const FIELDS_FIRST: seq<Stage> := [FieldInitializers, ConstructorBody, SuperConstructor]

  /** As written, every menu's construction throws: `initializeItems` runs
      while all of the menu's fields are `null`, and fails on the first
      one it reads, which the menu class itself declares. */
  lemma AsWrittenThrows(menu: Menu)
    ensures Construct(menu, JAVA_ORDER, {}) == NullPointer(ReadOrder(menu)[0])
    ensures ReadOrder(menu)[0] in InitializedFields(menu) + BodyFields(menu)
  {
  }

  /** With its fields set first, every menu is built: each field
      `initializeItems` reads has its value by then. */
  lemma FieldsFirstBuilds(menu: Menu)
    ensures Construct(menu, FIELDS_FIRST, {}) == Built
    ensures forall f :: f in ReadOrder(menu) ==> f in InitializedFields(menu) + BodyFields(menu)
  {
  }

  /** The superclass constructor throws for any menu whenever it runs
      before the fields `initializeItems` reads first have a value, in
      whatever order the other stages come. */
  lemma {:induction false} SuperFirstThrows(menu: Menu, rest: seq<Stage>)
    ensures Construct(menu, [SuperConstructor] + rest, {}) == NullPointer(ReadOrder(menu)[0])
  {
    assert ([SuperConstructor] + rest)[0] == SuperConstructor;
    assert ReadOrder(menu)[0] !in {};
  }
}
