/** The client's configuration: supplied once at construction, never changed. */
module Configuration {

  /** `tenantType` is "" when the caller configured none (an empty or missing
      tenant type is falsy and is treated alike). */
  datatype OAuth1Configuration = OAuth1Configuration(
    consumerKey: string,
    consumerSecret: string,
    tenantType: string,
    apiBaseUrl: string,
    apiBasePath: string,
    oauthRequestTokenPath: string,
    oauthAccessTokenPath: string,
    signatureMethod: string,
    accept: string,
    userAgent: string,
    callbackUrl: string)
}
