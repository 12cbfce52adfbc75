/** The configuration a Blip service is created with. */
module ServiceConfiguration {
  import opened JsValues

  /** The application name used when the configuration names none. */
  const DefaultApplicationName: string := "portal"

  /**
   * The configuration record. `tenant` is the truthiness of the optional
   * tenant indicator, the only thing the service reads of it.
   */
  datatype BlipServiceConfiguration = BlipServiceConfiguration(
    tenant: bool,
    blipDomainUrl: string,
    blipDomain: string,
    blipAccountIssuer: string,
    blipWebsocketPort: string,
    blipWebsocketScheme: string,
    blipWebsocketHostName: string,
    blipWebsocketHostNameTenant: string,
    applicationName: Option<string>)

  /**
   * The configuration as the service stores it: a copy with the application
   * name defaulted when, and only when, it is absent (an empty name is kept).
   */
  function WithDefaults(configuration: BlipServiceConfiguration): (r: BlipServiceConfiguration)
    ensures r.applicationName.Some?
    ensures configuration.applicationName.Some? ==> r == configuration
    ensures configuration.applicationName.None? ==>
      r.applicationName == Some(DefaultApplicationName) && r.(applicationName := None) == configuration
  {
    configuration.(applicationName := Coalesce(configuration.applicationName, Some(DefaultApplicationName)))
  }
}
