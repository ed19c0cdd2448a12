/** The author editor's article settings: the defaults it starts from
    (src/components/AuthorEditor.tsx:64-72), the overlay of stored settings on
    load (111-114) and the one-field updates of the configuration controls (320-424).
    Every one of these is an object spread `{ ...base, ...patch }`, which this
    module models as Overlay. */
module EditorSettings {
  import opened Types

  /** The settings a fresh editor starts with. No pull quote is set. */
  const Defaults: ArticleSettings := ArticleSettings(
    accentColor := Some("#ff5f3c"),
    layoutStyle := Some(Classic),
    showToc := Some(true),
    showDropCap := Some(true),
    heroTreatment := Some(Collage),
    pullQuote := None,
    kicker := Some("Reginald Field Report"),
    readingPace := Some(Studious))

  /** The defaults set every field but the pull quote, so they are resolved but not full. */
  lemma DefaultsResolved()
    ensures Resolved(Defaults) && !Full(Defaults)
    ensures Defaults.kicker == Some("Reginald Field Report") && Defaults.accentColor == Some("#ff5f3c")
  {
  }

  function Pick<T>(base: Option<T>, patch: Option<T>): Option<T> {
    if patch.Some? then patch else base
  }

  /** Every field present in `patch` has its value in `r`. */
  predicate Agrees(r: ArticleSettings, patch: ArticleSettings) {
    && (patch.accentColor.Some? ==> r.accentColor == patch.accentColor)
    && (patch.layoutStyle.Some? ==> r.layoutStyle == patch.layoutStyle)
    && (patch.showToc.Some? ==> r.showToc == patch.showToc)
    && (patch.showDropCap.Some? ==> r.showDropCap == patch.showDropCap)
    && (patch.heroTreatment.Some? ==> r.heroTreatment == patch.heroTreatment)
    && (patch.pullQuote.Some? ==> r.pullQuote == patch.pullQuote)
    && (patch.kicker.Some? ==> r.kicker == patch.kicker)
    && (patch.readingPace.Some? ==> r.readingPace == patch.readingPace)
  }

  /** Every field absent from `patch` keeps its value from `base` in `r`. */
  predicate KeepsAbsent(r: ArticleSettings, base: ArticleSettings, patch: ArticleSettings) {
    && (patch.accentColor.None? ==> r.accentColor == base.accentColor)
    && (patch.layoutStyle.None? ==> r.layoutStyle == base.layoutStyle)
    && (patch.showToc.None? ==> r.showToc == base.showToc)
    && (patch.showDropCap.None? ==> r.showDropCap == base.showDropCap)
    && (patch.heroTreatment.None? ==> r.heroTreatment == base.heroTreatment)
    && (patch.pullQuote.None? ==> r.pullQuote == base.pullQuote)
    && (patch.kicker.None? ==> r.kicker == base.kicker)
    && (patch.readingPace.None? ==> r.readingPace == base.readingPace)
  }

  /** `{ ...base, ...patch }`: fields present in `patch` win, the others come from `base`. */
  function Overlay(base: ArticleSettings, patch: ArticleSettings): (r: ArticleSettings)
    ensures Agrees(r, patch)
    ensures KeepsAbsent(r, base, patch)
  {
    ArticleSettings(
      Pick(base.accentColor, patch.accentColor),
      Pick(base.layoutStyle, patch.layoutStyle),
      Pick(base.showToc, patch.showToc),
      Pick(base.showDropCap, patch.showDropCap),
      Pick(base.heroTreatment, patch.heroTreatment),
      Pick(base.pullQuote, patch.pullQuote),
      Pick(base.kicker, patch.kicker),
      Pick(base.readingPace, patch.readingPace))
  }

  /** Every field a default exists for is set (pullQuote has none). */
  predicate Resolved(s: ArticleSettings) {
    && s.accentColor.Some? && s.layoutStyle.Some? && s.showToc.Some?
    && s.showDropCap.Some? && s.heroTreatment.Some? && s.kicker.Some?
    && s.readingPace.Some?
  }

  /** Every one of the eight fields is set. */
  predicate Full(s: ArticleSettings) {
    Resolved(s) && s.pullQuote.Some?
  }

  /** A missing settings record (`data.settings ?? {}`) leaves the settings unchanged. */
  lemma OverlayNothing(base: ArticleSettings)
    ensures Overlay(base, NoSettings) == base
  {
  }

  /** Overlaid onto the defaults, stored settings always resolve every defaulted field,
      and the absent ones come out as their default. */
  lemma OverlayOntoDefaults(stored: ArticleSettings)
    ensures Resolved(Overlay(Defaults, stored))
    ensures KeepsAbsent(Overlay(Defaults, stored), Defaults, stored)
    ensures Overlay(Defaults, stored).pullQuote == stored.pullQuote
  {
  }

  /** A stored record with all eight fields is taken over whole, whatever it lands on. */
  lemma OverlayFull(base: ArticleSettings, stored: ArticleSettings)
    requires Full(stored)
    ensures Overlay(base, stored) == stored
  {
  }

  /** Overlaying the same record twice is the same as once. */
  lemma OverlayIdempotent(base: ArticleSettings, patch: ArticleSettings)
    ensures Overlay(Overlay(base, patch), patch) == Overlay(base, patch)
  {
  }

  /** One configuration control's change. */
  datatype SettingEdit =
    | AccentColor(color: string)
    | Layout(layout: LayoutStyle)
    | Toc(show: bool)
    | DropCap(show: bool)
    | Hero(hero: HeroTreatment)
    | PullQuote(quote: string)
    | Kicker(text: string)
    | Pace(pace: ReadingPace)

  /** The one-key object a control spreads over the previous settings. */
  function Patch(e: SettingEdit): ArticleSettings {
    match e
    case AccentColor(c) => NoSettings.(accentColor := Some(c))
    case Layout(l) => NoSettings.(layoutStyle := Some(l))
    case Toc(b) => NoSettings.(showToc := Some(b))
    case DropCap(b) => NoSettings.(showDropCap := Some(b))
    case Hero(h) => NoSettings.(heroTreatment := Some(h))
    case PullQuote(q) => NoSettings.(pullQuote := Some(q))
    case Kicker(k) => NoSettings.(kicker := Some(k))
    case Pace(p) => NoSettings.(readingPace := Some(p))
  }

  /** `a` and `b` agree on every field except, possibly, the one `e` edits. */
  predicate SameExcept(a: ArticleSettings, b: ArticleSettings, e: SettingEdit) {
    && (e.AccentColor? || a.accentColor == b.accentColor)
    && (e.Layout? || a.layoutStyle == b.layoutStyle)
    && (e.Toc? || a.showToc == b.showToc)
    && (e.DropCap? || a.showDropCap == b.showDropCap)
    && (e.Hero? || a.heroTreatment == b.heroTreatment)
    && (e.PullQuote? || a.pullQuote == b.pullQuote)
    && (e.Kicker? || a.kicker == b.kicker)
    && (e.Pace? || a.readingPace == b.readingPace)
  }

  /** The value the edit carries, as the settings field it sets. */
  predicate Carries(s: ArticleSettings, e: SettingEdit) {
    match e
    case AccentColor(c) => s.accentColor == Some(c)
    case Layout(l) => s.layoutStyle == Some(l)
    case Toc(b) => s.showToc == Some(b)
    case DropCap(b) => s.showDropCap == Some(b)
    case Hero(h) => s.heroTreatment == Some(h)
    case PullQuote(q) => s.pullQuote == Some(q)
    case Kicker(k) => s.kicker == Some(k)
    case Pace(p) => s.readingPace == Some(p)
  }

  /** A control's onChange: its own field takes the new value, every other field is kept. */
  function ApplySetting(s: ArticleSettings, e: SettingEdit): (r: ArticleSettings)
    ensures Carries(r, e)
    ensures SameExcept(r, s, e)
  {
    Overlay(s, Patch(e))
  }

  predicate SameField(e1: SettingEdit, e2: SettingEdit) {
    || (e1.AccentColor? && e2.AccentColor?) || (e1.Layout? && e2.Layout?)
    || (e1.Toc? && e2.Toc?) || (e1.DropCap? && e2.DropCap?)
    || (e1.Hero? && e2.Hero?) || (e1.PullQuote? && e2.PullQuote?)
    || (e1.Kicker? && e2.Kicker?) || (e1.Pace? && e2.Pace?)
  }

  /** Changes to two different controls commute; of two changes to the same control the later wins. */
  lemma EditsCommuteOrOverwrite(s: ArticleSettings, e1: SettingEdit, e2: SettingEdit)
    ensures !SameField(e1, e2) ==>
      ApplySetting(ApplySetting(s, e1), e2) == ApplySetting(ApplySetting(s, e2), e1)
    ensures SameField(e1, e2) ==>
      ApplySetting(ApplySetting(s, e1), e2) == ApplySetting(s, e2)
  {
  }

  /** Edits keep every defaulted field resolved. */
  lemma EditKeepsResolved(s: ArticleSettings, e: SettingEdit)
    requires Resolved(s)
    ensures Resolved(ApplySetting(s, e))
  {
  }
}
