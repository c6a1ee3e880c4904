/**
 * The configuration editor. Every handler makes a shallow copy of the
 * configuration (`{ ...config }`) and then edits the nested arrays and objects
 * through it. Those are shared with the original, so the original sees every
 * edit; the one exception is a persona installed when none was present.
 */
module Editor {
  import opened Wrappers
  import opened Types
  import opened ConfigEdits

  /** The nested arrays and objects that every shallow copy of a configuration shares. */
  class ConfigTree {
    var protocols: seq<ProtocolSection>
    var workouts: seq<Workout>
    var library: Library

    constructor(protocols: seq<ProtocolSection>, workouts: seq<Workout>, library: Library)
      ensures this.protocols == protocols && this.workouts == workouts && this.library == library
    {
      this.protocols := protocols;
      this.workouts := workouts;
      this.library := library;
    }
  }

  /** The persona object. */
  class PersonaBox {
    var anima: string
    var archetype: string
    var symbol: string

    constructor(p: PersonaConfig)
      ensures Value() == p
    {
      anima := p.anima;
      archetype := p.archetype;
      symbol := p.symbol;
    }

    function Value(): PersonaConfig
      reads this
    {
      PersonaConfig(anima, archetype, symbol)
    }
  }

  /** The top-level configuration object. */
  class ConfigRef {
    var levels: Levels
    var maxXP: int
    var persona: PersonaBox?
    var tree: ConfigTree

    /** A configuration as it comes out of parsing or the defaults: nothing shared yet. */
    constructor Of(c: AppConfig)
      ensures Value() == c && fresh(tree) && (persona != null ==> fresh(persona))
    {
      levels := c.levels;
      maxXP := c.maxXP;
      if c.persona.Some? {
        persona := new PersonaBox(c.persona.value);
      } else {
        persona := null;
      }
      tree := new ConfigTree(c.protocols, c.workouts, c.library);
    }

    /** `{ ...other }`: a new top-level object whose fields point where the original's do. */
    constructor Copy(other: ConfigRef)
      ensures levels == other.levels && maxXP == other.maxXP && persona == other.persona && tree == other.tree
    {
      levels := other.levels;
      maxXP := other.maxXP;
      persona := other.persona;
      tree := other.tree;
    }

    /** The configuration value this object and everything it points to make up. */
    function Value(): AppConfig
      reads this, tree, persona
    {
      AppConfig(levels, maxXP, if persona == null then None else Some(persona.Value()), tree.library, tree.workouts, tree.protocols)
    }
  }

  class EditorModal {
    var activeTab: EditorTab
    var libCategory: LibraryCategory

    constructor()
      ensures activeTab == ProtocolsTab && libCategory == MentalModelsList
    {
      activeTab := ProtocolsTab;
      libCategory := MentalModelsList;
    }

    method SetActiveTab(tab: EditorTab)
      modifies this
      ensures activeTab == tab && libCategory == old(libCategory)
    {
      activeTab := tab;
    }

    method SetLibCategory(cat: LibraryCategory)
      modifies this
      ensures libCategory == cat && activeTab == old(activeTab)
    {
      libCategory := cat;
    }

    /**
     * `updateProtocolTitle`. A missing section or card makes the handler throw
     * before `onUpdateConfig`: no update is issued (`null`).
     */
    method UpdateProtocolTitle(config: ConfigRef, s: int, c: int, val: string) returns (newConfig: ConfigRef?)
      modifies config.tree
      ensures CardAt(old(config.tree.protocols), s, c) ==>
        newConfig != null && fresh(newConfig) && newConfig.Value() == config.Value()
        && config.tree.protocols == WithCard(old(config.tree.protocols), s, c, old(config.tree.protocols)[s].cards[c].(title := val))
      ensures !CardAt(old(config.tree.protocols), s, c) ==> newConfig == null && config.tree.protocols == old(config.tree.protocols)
      ensures config.tree.workouts == old(config.tree.workouts) && config.tree.library == old(config.tree.library)
    {
      var tree := config.tree;
      if !CardAt(tree.protocols, s, c) {
        return null;
      }
      newConfig := new ConfigRef.Copy(config);
      var card := tree.protocols[s].cards[c];
      tree.protocols := WithCard(tree.protocols, s, c, card.(title := val));
    }

    /** `updateProtocolMaxXP`: `maxXP := parseInt(val) || 0`. */
    method UpdateProtocolMaxXP(config: ConfigRef, s: int, c: int, val: string) returns (newConfig: ConfigRef?)
      modifies config.tree
      ensures CardAt(old(config.tree.protocols), s, c) ==>
        newConfig != null && fresh(newConfig) && newConfig.Value() == config.Value()
        && config.tree.protocols == WithCard(old(config.tree.protocols), s, c, SetMaxXP(old(config.tree.protocols)[s].cards[c], val))
      ensures !CardAt(old(config.tree.protocols), s, c) ==> newConfig == null && config.tree.protocols == old(config.tree.protocols)
      ensures config.tree.workouts == old(config.tree.workouts) && config.tree.library == old(config.tree.library)
    {
      var tree := config.tree;
      if !CardAt(tree.protocols, s, c) {
        return null;
      }
      newConfig := new ConfigRef.Copy(config);
      tree.protocols := WithCard(tree.protocols, s, c, SetMaxXP(tree.protocols[s].cards[c], val));
    }

    /** `updateProtocolItem`: the label verbatim, or `xp := parseInt(val) || 0`. */
    method UpdateProtocolItem(config: ConfigRef, s: int, c: int, i: int, field: ItemField, val: string) returns (newConfig: ConfigRef?)
      modifies config.tree
      ensures ItemAt(old(config.tree.protocols), s, c, i) ==>
        newConfig != null && fresh(newConfig) && newConfig.Value() == config.Value()
        && var card := old(config.tree.protocols)[s].cards[c];
           config.tree.protocols == WithCard(old(config.tree.protocols), s, c, card.(items := card.items[i := SetItemField(card.items[i], field, val)]))
      ensures !ItemAt(old(config.tree.protocols), s, c, i) ==> newConfig == null && config.tree.protocols == old(config.tree.protocols)
      ensures config.tree.workouts == old(config.tree.workouts) && config.tree.library == old(config.tree.library)
    {
      var tree := config.tree;
      if !ItemAt(tree.protocols, s, c, i) {
        return null;
      }
      newConfig := new ConfigRef.Copy(config);
      var card := tree.protocols[s].cards[c];
      tree.protocols := WithCard(tree.protocols, s, c, card.(items := card.items[i := SetItemField(card.items[i], field, val)]));
    }

    /** `addProtocolItem`: `now` stands for `Date.now()`. */
    method AddProtocolItem(config: ConfigRef, s: int, c: int, now: nat) returns (newConfig: ConfigRef?)
      modifies config.tree
      ensures CardAt(old(config.tree.protocols), s, c) ==>
        newConfig != null && fresh(newConfig) && newConfig.Value() == config.Value()
        && var card := old(config.tree.protocols)[s].cards[c];
           config.tree.protocols == WithCard(old(config.tree.protocols), s, c, card.(items := Push(card.items, NewHabit(now))))
      ensures !CardAt(old(config.tree.protocols), s, c) ==> newConfig == null && config.tree.protocols == old(config.tree.protocols)
      ensures config.tree.workouts == old(config.tree.workouts) && config.tree.library == old(config.tree.library)
    {
      var tree := config.tree;
      if !CardAt(tree.protocols, s, c) {
        return null;
      }
      newConfig := new ConfigRef.Copy(config);
      var card := tree.protocols[s].cards[c];
      tree.protocols := WithCard(tree.protocols, s, c, card.(items := Push(card.items, NewHabit(now))));
    }

    /** `removeProtocolItem`: `confirmed` is the answer to "Delete item?"; declining changes nothing. */
    method RemoveProtocolItem(config: ConfigRef, s: int, c: int, i: int, confirmed: bool) returns (newConfig: ConfigRef?)
      modifies config.tree
      ensures confirmed && CardAt(old(config.tree.protocols), s, c) ==>
        newConfig != null && fresh(newConfig) && newConfig.Value() == config.Value()
        && var card := old(config.tree.protocols)[s].cards[c];
           config.tree.protocols == WithCard(old(config.tree.protocols), s, c, card.(items := SpliceOne(card.items, i)))
      ensures !(confirmed && CardAt(old(config.tree.protocols), s, c)) ==> newConfig == null && config.tree.protocols == old(config.tree.protocols)
      ensures config.tree.workouts == old(config.tree.workouts) && config.tree.library == old(config.tree.library)
    {
      if !confirmed {
        return null;
      }
      var tree := config.tree;
      if !CardAt(tree.protocols, s, c) {
        return null;
      }
      newConfig := new ConfigRef.Copy(config);
      var card := tree.protocols[s].cards[c];
      tree.protocols := WithCard(tree.protocols, s, c, card.(items := SpliceOne(card.items, i)));
    }

    /** `updateWorkout`: a missing workout makes the handler throw. */
    method UpdateWorkout(config: ConfigRef, idx: int, field: WorkoutField, val: string) returns (newConfig: ConfigRef?)
      modifies config.tree
      ensures 0 <= idx < |old(config.tree.workouts)| ==>
        newConfig != null && fresh(newConfig) && newConfig.Value() == config.Value()
        && config.tree.workouts == old(config.tree.workouts)[idx := SetWorkoutField(old(config.tree.workouts)[idx], field, val)]
      ensures !(0 <= idx < |old(config.tree.workouts)|) ==> newConfig == null && config.tree.workouts == old(config.tree.workouts)
      ensures config.tree.protocols == old(config.tree.protocols) && config.tree.library == old(config.tree.library)
    {
      var tree := config.tree;
      if !(0 <= idx < |tree.workouts|) {
        return null;
      }
      newConfig := new ConfigRef.Copy(config);
      tree.workouts := tree.workouts[idx := SetWorkoutField(tree.workouts[idx], field, val)];
    }

    /** `updateLibraryItem` in the selected category. */
    method UpdateLibraryItem(config: ConfigRef, index: int, field: LibraryField, val: string) returns (newConfig: ConfigRef)
      modifies config.tree
      ensures fresh(newConfig) && newConfig.Value() == config.Value()
      ensures config.tree.library == UpdateEntry(old(config.tree.library), libCategory, index, field, val)
      ensures config.tree.protocols == old(config.tree.protocols) && config.tree.workouts == old(config.tree.workouts)
    {
      newConfig := new ConfigRef.Copy(config);
      var tree := config.tree;
      if libCategory == QuotesList {
        tree.library := tree.library.(quotes := AssignAt(tree.library.quotes, index, val));
      } else {
        var list := EntriesOf(tree.library, libCategory);
        if 0 <= index < |list| {
          tree.library := WithEntries(tree.library, libCategory, list[index := SetLibraryField(list[index], field, val)]);
        }
      }
    }

    /** `addLibraryItem` in the selected category. */
    method AddLibraryItem(config: ConfigRef) returns (newConfig: ConfigRef)
      modifies config.tree
      ensures fresh(newConfig) && newConfig.Value() == config.Value()
      ensures config.tree.library == AddEntry(old(config.tree.library), libCategory)
      ensures config.tree.protocols == old(config.tree.protocols) && config.tree.workouts == old(config.tree.workouts)
    {
      newConfig := new ConfigRef.Copy(config);
      var tree := config.tree;
      if libCategory == QuotesList {
        tree.library := tree.library.(quotes := Unshift(tree.library.quotes, NewQuote));
      } else {
        tree.library := WithEntries(tree.library, libCategory, Unshift(EntriesOf(tree.library, libCategory), NewEntry(libCategory)));
      }
    }

    /** `removeLibraryItem`: `confirmed` is the answer to "Remove this item?". */
    method RemoveLibraryItem(config: ConfigRef, index: int, confirmed: bool) returns (newConfig: ConfigRef?)
      modifies config.tree
      ensures confirmed ==>
        newConfig != null && fresh(newConfig) && newConfig.Value() == config.Value()
        && config.tree.library == RemoveEntry(old(config.tree.library), libCategory, index)
      ensures !confirmed ==> newConfig == null && config.tree.library == old(config.tree.library)
      ensures config.tree.protocols == old(config.tree.protocols) && config.tree.workouts == old(config.tree.workouts)
    {
      if !confirmed {
        return null;
      }
      newConfig := new ConfigRef.Copy(config);
      var tree := config.tree;
      if libCategory == QuotesList {
        tree.library := tree.library.(quotes := SpliceOne(tree.library.quotes, index));
      } else {
        tree.library := WithEntries(tree.library, libCategory, SpliceOne(EntriesOf(tree.library, libCategory), index));
      }
    }

    /**
     * `updatePersona`: a missing persona is first replaced, on the copy only, by
     * a fresh Jaguar / Warrior King / Tree; then the one field is set.
     */
    method UpdatePersona(config: ConfigRef, field: PersonaField, val: string) returns (newConfig: ConfigRef)
      modifies config.persona
      ensures fresh(newConfig)
      ensures newConfig.Value() == old(config.Value()).(persona := Some(SetPersonaField(
        if old(config.persona) == null then DefaultPersona else old(config.persona.Value()), field, val)))
      ensures old(config.persona) != null ==> newConfig.persona == config.persona && config.Value() == newConfig.Value()
      ensures old(config.persona) == null ==> config.persona == null && fresh(newConfig.persona)
    {
      newConfig := new ConfigRef.Copy(config);
      if newConfig.persona == null {
        var p := new PersonaBox(DefaultPersona);
        newConfig.persona := p;
      }
      var p := newConfig.persona;
      match field
      case AnimaField => p.anima := val;
      case ArchetypeField => p.archetype := val;
      case SymbolField => p.symbol := val;
    }
  }
}
