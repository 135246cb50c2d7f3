/**
 * CF::Configuration (lib/cf/configuration.rb): the settings object whose accessors the
 * caller assigns, with the derived base URL, validity and debug flags.
 */
module Config {
  import opened Wrappers
  import opened Errors

  const DEFAULT_API_VERSION := "v2"
  const DEFAULT_TIMEOUT := 30

  class Configuration {
    var subdomain: Option<string>
    var apiToken: Option<string>
    var apiVersion: string
    var debug: bool
    var timeout: int
    var workspaceId: Option<string>
    var teamId: Option<string>

    /** A new configuration: only the API version and the timeout have values. */
    constructor ()
      ensures subdomain == None && apiToken == None
      ensures apiVersion == DEFAULT_API_VERSION && !debug && timeout == DEFAULT_TIMEOUT
      ensures workspaceId == None && teamId == None
    {
      subdomain := None;
      apiToken := None;
      apiVersion := DEFAULT_API_VERSION;
      debug := false;
      timeout := DEFAULT_TIMEOUT;
      workspaceId := None;
      teamId := None;
    }

    /**
     * `base_url`: raises a ConfigurationError without a subdomain; otherwise the account's
     * host under myclickfunnels.com followed by the API version.
     */
    function BaseUrl(): (r: Result<string, SdkError>)
      reads this
      ensures r.Failure? <==> subdomain.None?
      ensures r.Failure? ==> r.error == ConfigurationError("Subdomain is required")
      ensures r.Success? ==> r.value == "https://" + subdomain.value + ".myclickfunnels.com/api/" + apiVersion
    {
      match subdomain
      case None => Failure(ConfigurationError("Subdomain is required"))
      case Some(s) => Success("https://" + s + ".myclickfunnels.com/api/" + apiVersion)
    }

    /** `valid?`: both the subdomain and the token are set; then `base_url` cannot raise. */
    function IsValid(): (b: bool)
      reads this
      ensures b <==> subdomain.Some? && apiToken.Some?
      ensures b ==> BaseUrl().Success?
    {
      subdomain.Some? && apiToken.Some?
    }

    /** `debug?`. */
    function IsDebug(): (b: bool)
      reads this
      ensures b == debug
    {
      debug
    }

    /** `log_requests?`: requests are logged exactly in debug mode. */
    function LogRequests(): (b: bool)
      reads this
      ensures b == debug
    {
      IsDebug()
    }

    // The attr_accessor setters; each frame admits only its own field.

    method SetSubdomain(v: Option<string>)
      modifies this`subdomain
      ensures subdomain == v
    {
      subdomain := v;
    }

    method SetApiToken(v: Option<string>)
      modifies this`apiToken
      ensures apiToken == v
    {
      apiToken := v;
    }

    method SetApiVersion(v: string)
      modifies this`apiVersion
      ensures apiVersion == v
    {
      apiVersion := v;
    }

    method SetDebug(v: bool)
      modifies this`debug
      ensures debug == v
    {
      debug := v;
    }

    method SetTimeout(v: int)
      modifies this`timeout
      ensures timeout == v
    {
      timeout := v;
    }

    method SetWorkspaceId(v: Option<string>)
      modifies this`workspaceId
      ensures workspaceId == v
    {
      workspaceId := v;
    }

    method SetTeamId(v: Option<string>)
      modifies this`teamId
      ensures teamId == v
    {
      teamId := v;
    }
  }
}
