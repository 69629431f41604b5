/**
 * The application settings object the route handlers read. Its loader is
 * not part of this model: each setting is taken as it arrives, `None`
 * when unset, and every other setting (API keys, OAuth secrets, database
 * URLs, ...) is kept as an opaque name-to-value map.
 */
module AppConfig {
  import opened Wrappers

  datatype Settings = Settings(
    authType: Option<string>,     // config.AUTH_TYPE
    etlService: Option<string>,   // config.ETL_SERVICE
    others: map<string, string>)  // every other setting, secrets included
}
