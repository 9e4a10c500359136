/**
 * UrlConfigService: the API and UI base URLs the application advertises. As written, the
 * production URLs are assigned and then overwritten by the development URLs on every path;
 * `IntendedUrls` is the choice the code's own documentation describes.
 */
module UrlService {
  import opened Wrappers
  import opened Errors
  import opened Config

  const DevUiUrl := "http://localhost:3333"
  const DevApiUrl := "http://localhost:3000"
  const NodeEnvKey := "NODE_ENV"
  const ProductionUrlKey := "PRODUCTION_URL"
  const Production := "production"
  const Development := "development"
  const MissingProductionUrlMessage := "PRODUCTION_URL must be defined in production environment"

  /** The base URLs, the UI's first and the API's second. */
  datatype Urls = Urls(uiUrl: string, apiUrl: string)

  /** `NODE_ENV`, development when it is unset. */
  function Environment(settings: Settings): (env: string)
    ensures NodeEnvKey !in settings ==> env == Development
    ensures NodeEnvKey in settings ==> env == settings[NodeEnvKey]
  {
    Get(settings, NodeEnvKey).GetOr(Development)
  }

  /** The URLs the service holds once its constructor returns, as written, or the error it throws. */
  function ResolvedUrls(settings: Settings): (r: Result<Urls, Exception>)
    ensures r.Failure? <==> Environment(settings) == Production && ProductionUrlKey !in settings
    ensures r.Failure? ==> r.error == Error(MissingProductionUrlMessage)
    ensures r.Success? ==> r.value == Urls(DevUiUrl, DevApiUrl)
  {
    if Environment(settings) == Production && Get(settings, ProductionUrlKey).None? then
      Failure(Error(MissingProductionUrlMessage))
    else
      Success(Urls(DevUiUrl, DevApiUrl))
  }

  class UrlConfigService {
    const devUiUrl: string
    const devApiUrl: string
    /** `None` is the field before anything assigned it. */
    var uiUrl: Option<string>
    var apiUrl: Option<string>

    constructor Blank()
      ensures devUiUrl == DevUiUrl && devApiUrl == DevApiUrl
      ensures uiUrl == None && apiUrl == None
    {
      devUiUrl := DevUiUrl;
      devApiUrl := DevApiUrl;
      uiUrl := None;
      apiUrl := None;
    }

    /** The constructor: a service holding the resolved URLs, or the error the constructor throws. */
    static method New(settings: Settings) returns (r: Result<UrlConfigService, Exception>)
      ensures r.Success? <==> ResolvedUrls(settings).Success?
      ensures r.Success? ==> fresh(r.value) && r.value.Current() == Some(ResolvedUrls(settings).value)
      ensures r.Failure? ==> r.error == ResolvedUrls(settings).error
    {
      var service := new UrlConfigService.Blank();
      var initialized := service.InitializeUrls(settings);
      if initialized.Failure? {
        return Failure(initialized.error);
      }
      r := Success(service);
    }

    /** The two getters together; `None` while either field is unassigned. */
    function Current(): (u: Option<Urls>)
      reads this
      ensures u.Some? <==> uiUrl.Some? && apiUrl.Some?
      ensures u.Some? ==> u.value.uiUrl == uiUrl.value && u.value.apiUrl == apiUrl.value
    {
      if uiUrl.Some? && apiUrl.Some? then Some(Urls(uiUrl.value, apiUrl.value)) else None
    }

    /** `_initializeUrls`. */
    method InitializeUrls(settings: Settings) returns (r: Result<(), Exception>)
      requires devUiUrl == DevUiUrl && devApiUrl == DevApiUrl
      modifies this
      ensures r.Success? <==> ResolvedUrls(settings).Success?
      ensures r.Success? ==> Current() == Some(ResolvedUrls(settings).value)
      ensures r.Failure? ==> r.error == ResolvedUrls(settings).error && Current() == old(Current())
    {
      var environment := Environment(settings);
      var productionUrl := Get(settings, ProductionUrlKey);
      if environment == Production {
        var prod := ProdUrlInit(productionUrl);
        if prod.Failure? {
          return prod;
        }
      }
      uiUrl := Some(devUiUrl);
      apiUrl := Some(devApiUrl);
      r := Success(());
    }

    /** `_prodUrlInit`: both URLs become the production URL, which must be set. */
    method ProdUrlInit(productionUrl: Option<string>) returns (r: Result<(), Exception>)
      modifies this
      ensures r.Success? <==> productionUrl.Some?
      ensures r.Success? ==> Current() == Some(Urls(productionUrl.value, productionUrl.value))
      ensures r.Failure? ==> r == Failure(Error(MissingProductionUrlMessage)) && Current() == old(Current())
    {
      if productionUrl.None? {
        return Failure(Error(MissingProductionUrlMessage));
      }
      apiUrl := Some(productionUrl.value);
      uiUrl := Some(productionUrl.value);
      r := Success(());
    }
  }

  /** The URLs the service evidently means to hold: the production URL for both in production. */
  function IntendedUrls(settings: Settings): (r: Result<Urls, Exception>)
    ensures r.Failure? <==> Environment(settings) == Production && ProductionUrlKey !in settings
    ensures r.Failure? ==> r.error == Error(MissingProductionUrlMessage)
    ensures r.Success? && Environment(settings) == Production
            ==> r.value == Urls(settings[ProductionUrlKey], settings[ProductionUrlKey])
    ensures r.Success? && Environment(settings) != Production ==> r.value == Urls(DevUiUrl, DevApiUrl)
  {
    if Environment(settings) == Production then
      match Get(settings, ProductionUrlKey)
      case None => Failure(Error(MissingProductionUrlMessage))
      case Some(url) => Success(Urls(url, url))
    else
      Success(Urls(DevUiUrl, DevApiUrl))
  }

  /** As written, a production deployment advertises the development URLs whatever PRODUCTION_URL says. */
  lemma ProductionUrlIsDiscarded(url: string)
    requires url != DevUiUrl
    ensures var settings := map[NodeEnvKey := Production, ProductionUrlKey := url];
            ResolvedUrls(settings) == Success(Urls(DevUiUrl, DevApiUrl))
            && IntendedUrls(settings) == Success(Urls(url, url))
            && ResolvedUrls(settings) != IntendedUrls(settings)
  {
  }

  /** Outside production the two agree, and they fail on exactly the same configurations. */
  lemma IntendedAgreesOutsideProduction(settings: Settings)
    ensures ResolvedUrls(settings).Failure? <==> IntendedUrls(settings).Failure?
    ensures Environment(settings) != Production ==> ResolvedUrls(settings) == IntendedUrls(settings)
  {
  }
}
