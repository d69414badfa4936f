/** The rows the application keeps in its database tables. Timestamps and
    ids are opaque strings; counters and positions are integers. */
module Entities {

  datatype Category = Category(
    id: string,
    userId: string,
    name: string,
    orderIndex: int,
    createdAt: string)

  datatype Site = Site(
    id: string,
    categoryId: string,
    userId: string,
    name: string,
    url: string,
    logo: string,
    visits: int,
    orderIndex: int,
    createdAt: string)

  /** A user's settings row, with the weather and location columns the pages
      read and write alongside the declared ones. */
  datatype Settings = Settings(
    id: string,
    userId: string,
    siteTitle: string,
    logoType: string,
    logoContent: string,
    defaultSearchEngine: string,
    province: string,
    city: string,
    temperature: string,
    weatherCondition: string,
    createdAt: string,
    updatedAt: string)

  function CategoryId(c: Category): string { c.id }
  function SiteId(s: Site): string { s.id }

  /** The filter `site.category_id === id`. */
  function InCategory(id: string): Site -> bool {
    (s: Site) => s.categoryId == id
  }
}
