/**
 * The technical-details accordion (src/components/ui/TechAccordion.tsx): a
 * set of open section ids, seeded from the sections marked open by default,
 * and a toggle that keeps a single section open on narrow screens.
 */
module TechAccordion {

  import opened Wrappers

  datatype Section = Section(id: string, title: string, items: seq<string>, defaultOpen: bool)

  /** SECTIONS */
  const Sections: seq<Section> := [
    Section("formulation", "Formulation",
      ["HEMA-free · Acid-free", "Medium–thick · Self-leveling", "Finish: Clear · Warm Nude", "For licensed professionals"],
      true),
    Section("performance", "Performance",
      ["Supports controlled apex formation", "3–4 weeks wear (professional application)"],
      true),
    Section("cure-removal", "Cure & Removal",
      ["Cure: 30–40s LED (48W+)", "Removal: Soak-off · 6–10 minutes"],
      false),
    Section("origin", "Origin",
      ["Formulated & engineered in Japan", "Lot No. 2025-JPN-01"],
      false)
  ]

  /** Screens narrower than this keep at most one section open. */
  const MobileBreakpoint: int := 768

  /**
   * `typeof window !== 'undefined' && window.innerWidth < 768`; `width` is
   * None when there is no window.
   */
  predicate Narrow(width: Option<int>) {
    width.Some? && width.value < MobileBreakpoint
  }

  /** The ids of the sections marked open by default. */
  function DefaultOpenIds(sections: seq<Section>): set<string> {
    set s | s in sections && s.defaultOpen :: s.id
  }

  /** The initial `Set`, filled by `SECTIONS.forEach`. */
  method InitialOpenIds(sections: seq<Section>) returns (ids: set<string>)
    ensures ids == DefaultOpenIds(sections)
  {
    ids := {};
    for i := 0 to |sections|
      invariant ids == DefaultOpenIds(sections[..i])
    {
      assert sections[..i + 1] == sections[..i] + [sections[i]];
      if sections[i].defaultOpen {
        ids := ids + {sections[i].id};
      }
    }
    assert sections[..|sections|] == sections;
  }

  /** Formulation and performance start open; nothing else does. */
  lemma DefaultOpenSections()
    ensures DefaultOpenIds(Sections) == {"formulation", "performance"}
  {
    var open := DefaultOpenIds(Sections);
    assert Sections[0] in Sections && Sections[1] in Sections;
    assert "formulation" in open && "performance" in open;
    forall x | x in open
      ensures x == "formulation" || x == "performance"
    {
      var s :| s in Sections && s.defaultOpen && s.id == x;
      var k :| 0 <= k < |Sections| && Sections[k] == s;
    }
  }

  /**
   * `toggleSection(id)`: an open section closes; a closed one opens, on a
   * narrow screen after every other section has been closed.
   */
  function Toggled(prev: set<string>, id: string, width: Option<int>): (next: set<string>)
    ensures id in next <==> id !in prev
    ensures next - {id} <= prev - {id}
    ensures id in prev || !Narrow(width) ==> next - {id} == prev - {id}
    ensures id !in prev && Narrow(width) ==> next == {id}
  {
    if id in prev then prev - {id}
    else if Narrow(width) then {id}
    else prev + {id}
  }

  /** On a wide screen (or without a window) a second toggle undoes the first. */
  lemma ToggleTwiceRestores(prev: set<string>, id: string, width: Option<int>)
    requires !Narrow(width)
    ensures Toggled(Toggled(prev, id, width), id, width) == prev
  {
    var once := Toggled(prev, id, width);
    assert once - {id} == prev - {id};
  }

  /**
   * On a narrow screen a second toggle closes everything: the sections that
   * were open besides `id` are not brought back.
   */
  lemma ToggleTwiceNarrow(prev: set<string>, id: string, width: Option<int>)
    requires Narrow(width) && id !in prev
    ensures Toggled(Toggled(prev, id, width), id, width) == {}
  {
  }

  /** Once at most one section is open, toggles on a narrow screen keep it that way. */
  lemma NarrowKeepsAtMostOneOpen(prev: set<string>, id: string, width: Option<int>)
    requires Narrow(width) && |prev| <= 1
    ensures |Toggled(prev, id, width)| <= 1
  {
    if id in prev {
      assert |prev - {id}| == |prev| - 1;
    }
  }

  class Accordion {
    var openIds: set<string>

    constructor ()
      ensures openIds == {"formulation", "performance"}
    {
      DefaultOpenSections();
      var initial := InitialOpenIds(Sections);
      openIds := initial;
    }

    method Toggle(id: string, width: Option<int>)
      modifies this
      ensures openIds == Toggled(old(openIds), id, width)
    {
      if id in openIds {
        openIds := openIds - {id};
      } else {
        if Narrow(width) {
          openIds := {};
        }
        openIds := openIds + {id};
      }
    }

    /** Whether a section is rendered open. */
    function IsOpen(id: string): bool
      reads this
    {
      id in openIds
    }
  }
}
