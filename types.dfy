/** Shapes shared by the article editor: src/lib/types.ts. */
module Types {

  /** A value that may be null or undefined in the source. */
  datatype Option<T> = None | Some(value: T) {
    /** The `??` operator: the value, or `default` when null/undefined. */
    function GetOr(default: T): T {
      match this
      case Some(v) => v
      case None => default
    }
  }

  /** JavaScript truthiness of a nullable string: null and "" are both falsy. */
  predicate Truthy(s: Option<string>) {
    s.Some? && s.value != ""
  }

  datatype ArticleStatus = Draft | Published

  datatype LayoutStyle = Classic | Immersive | Annotated

  datatype HeroTreatment = Collage | Spotlight | Paper

  datatype ReadingPace = Calm | Studious | Chaotic

  /** ArticleSettings: every field is optional; None is an absent key. */
  datatype ArticleSettings = ArticleSettings(
    accentColor: Option<string>,
    layoutStyle: Option<LayoutStyle>,
    showToc: Option<bool>,
    showDropCap: Option<bool>,
    heroTreatment: Option<HeroTreatment>,
    pullQuote: Option<string>,
    kicker: Option<string>,
    readingPace: Option<ReadingPace>)

  /** The empty settings object `{}`. */
  const NoSettings: ArticleSettings :=
    ArticleSettings(None, None, None, None, None, None, None, None)
}
