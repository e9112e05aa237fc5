/**
  The dashboard template record: a named layout of widgets on a responsive grid, one layout
  for each of the four screen-size variants. The field structure follows the JSON object that
  the template's token wraps (keys `createdAt`, `updatedAt`, `deletedAt`, `userIdentityID`,
  `default`, `TemplateBase` with `name` and `displayName`, `templateConfig` with `sm`, `md`,
  `lg` and `xl`, and grid items with `i`, `title`, `x`, `y`, `w`, `h`, `minH`, `maxH` and
  `static`).
*/
module Templates {
  import opened Wrappers

  /**
    An instant, counted in ticks from Go's zero time (0001-01-01T00:00:00Z). How an instant is
    written as RFC 3339 text is up to the JSON layer.
  */
  type Timestamp = int

  /** The zero instant, which is what an unset time field holds. */
  const ZeroTime: Timestamp := 0

  /** A widget's size on the grid: its width and height spans and the bounds on its height. */
  datatype WidgetDimensions = WidgetDimensions(width: int, height: int, maxHeight: int, minHeight: int)

  /** One widget placement: the grid item of the front-end grid library. */
  datatype GridItem = GridItem(
    dimensions: WidgetDimensions,
    title: string,
    id: string,
    x: int,
    y: int,
    isStatic: bool)

  /** The identifying part of a template: a stable key and a presentation name. */
  datatype TemplateBase = TemplateBase(name: string, displayName: string)

  /** One layout per breakpoint variant; an absent (null) layout is the empty sequence. */
  datatype TemplateConfig = TemplateConfig(
    sm: seq<GridItem>,
    md: seq<GridItem>,
    lg: seq<GridItem>,
    xl: seq<GridItem>)

  datatype DashboardTemplate = DashboardTemplate(
    createdAt: Timestamp,
    updatedAt: Timestamp,
    deletedAt: Option<Timestamp>,
    userIdentityId: nat,
    default: bool,
    base: TemplateBase,
    config: TemplateConfig)

  /** The configuration with every layout absent. */
  function EmptyConfig(): TemplateConfig {
    TemplateConfig([], [], [], [])
  }

  /**
    Go's zero value of the record: what a JSON object with none of the expected keys decodes
    to, since missing fields are left at their zero values.
  */
  function ZeroTemplate(): DashboardTemplate {
    DashboardTemplate(ZeroTime, ZeroTime, None, 0, false, TemplateBase("", ""), EmptyConfig())
  }
}
