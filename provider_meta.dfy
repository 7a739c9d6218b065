/**
 * The value the plugin SDK hands every resource operation as `meta`: normally the
 * `OpensearchDashboardsClient` built by the provider, but typed `any`, so each operation checks
 * its type first.
 */
module ProviderMeta {
  import SavedObjects
  import DefaultIndexPattern

  /** `OpensearchDashboardsClient`: the two API clients. */
  class DashboardsClient {
    const savedObjects: SavedObjects.Provider
    const defaultIndexPattern: DefaultIndexPattern.Provider

    constructor (savedObjects: SavedObjects.Provider, defaultIndexPattern: DefaultIndexPattern.Provider)
      ensures this.savedObjects == savedObjects && this.defaultIndexPattern == defaultIndexPattern
    {
      this.savedObjects := savedObjects;
      this.defaultIndexPattern := defaultIndexPattern;
    }
  }

  /** `meta`: the expected client, or a value of any other type. */
  datatype Meta = Dashboards(client: DashboardsClient) | Foreign
}
