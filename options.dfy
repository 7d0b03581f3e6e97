/**
 * The option checks that getApp runs before it builds anything
 * (lib/getApp.js, lines 9-23): five guards in a fixed order, each
 * throwing its own error, and the configuration the rest of getApp
 * reads from the options once every guard has passed.
 */
module Options {
  import opened Wrappers

  /**
   * The JavaScript values an option field can hold, as far as the
   * `!x` test can tell them apart. A Buffer (what a certificate read
   * with `readFileSync` is) is an object, so it is truthy even when it
   * is empty.
   */
  datatype JsValue =
    | Undefined
    | Null
    | Bool(b: bool)
    | Str(s: string)
    | Buffer(bytes: seq<bv8>)

  /** JavaScript truthiness: `!v` is false exactly when `Truthy(v)`. */
  predicate Truthy(v: JsValue) {
    match v
    case Undefined => false
    case Null => false
    case Bool(b) => b
    case Str(s) => s != ""
    case Buffer(_) => true
  }

  /** The `identityProvider` object of the options. */
  datatype IdentityProvider = IdentityProvider(name: JsValue, certificate: JsValue)

  /**
   * The options object given to getApp. An `identityProvider` that is
   * absent or falsy (undefined, null, '') is `None`.
   */
  datatype AppOptions = AppOptions(directory: JsValue, identityProvider: Option<IdentityProvider>)

  /** The five errors getApp throws, one per guard, in the order the guards run. */
  datatype ConfigError =
    | OptionsMissing
    | DirectoryMissing
    | IdentityProviderMissing
    | IdentityProviderNameMissing
    | IdentityProviderCertificateMissing
  {
    /** The message of the thrown Error. */
    function Message(): string {
      match this
      case OptionsMissing => "Options are missing."
      case DirectoryMissing => "Directory is missing."
      case IdentityProviderMissing => "Identity provider is missing."
      case IdentityProviderNameMissing => "Identity provider name is missing."
      case IdentityProviderCertificateMissing => "Identity provider certificate is missing."
    }

    /** The position of the guard that reports this error: 0 runs first. */
    function Rank(): nat {
      match this
      case OptionsMissing => 0
      case DirectoryMissing => 1
      case IdentityProviderMissing => 2
      case IdentityProviderNameMissing => 3
      case IdentityProviderCertificateMissing => 4
    }
  }

  /** What getApp takes from valid options: the values themselves, not copies. */
  datatype Config = Config(directory: JsValue, identityProviderName: JsValue, certificate: JsValue)

  /**
   * Whether the option that error `e` complains about is there: the
   * value at its property path exists and is truthy. Each condition is
   * stated on its own, without reference to the order of the guards.
   */
  predicate Present(o: Option<AppOptions>, e: ConfigError) {
    match e
    case OptionsMissing => o.Some?
    case DirectoryMissing => o.Some? && Truthy(o.value.directory)
    case IdentityProviderMissing => o.Some? && o.value.identityProvider.Some?
    case IdentityProviderNameMissing =>
      o.Some? && o.value.identityProvider.Some? && Truthy(o.value.identityProvider.value.name)
    case IdentityProviderCertificateMissing =>
      o.Some? && o.value.identityProvider.Some? && Truthy(o.value.identityProvider.value.certificate)
  }

  /**
   * The guard chain of getApp. It fails with the error of the FIRST
   * guard, in the order of `Rank`, whose option is not present, and
   * succeeds exactly when all five are present; on success the
   * configuration carries the given values unchanged.
   */
  function Validate(o: Option<AppOptions>): (r: Result<Config, ConfigError>)
    ensures r.Success? <==> forall e: ConfigError :: Present(o, e)
    ensures r.Failure? ==> !Present(o, r.error)
    ensures r.Failure? ==> forall e: ConfigError :: e.Rank() < r.error.Rank() ==> Present(o, e)
    ensures r.Success? ==>
      && o.Some? && o.value.identityProvider.Some?
      && Truthy(r.value.directory) && Truthy(r.value.identityProviderName) && Truthy(r.value.certificate)
      && r.value.directory == o.value.directory
      && r.value.identityProviderName == o.value.identityProvider.value.name
      && r.value.certificate == o.value.identityProvider.value.certificate
  {
    if o.None? then
      assert !Present(o, OptionsMissing);
      Failure(OptionsMissing)
    else if !Truthy(o.value.directory) then
      assert !Present(o, DirectoryMissing);
      Failure(DirectoryMissing)
    else if o.value.identityProvider.None? then
      assert !Present(o, IdentityProviderMissing);
      Failure(IdentityProviderMissing)
    else if !Truthy(o.value.identityProvider.value.name) then
      assert !Present(o, IdentityProviderNameMissing);
      Failure(IdentityProviderNameMissing)
    else if !Truthy(o.value.identityProvider.value.certificate) then
      assert !Present(o, IdentityProviderCertificateMissing);
      Failure(IdentityProviderCertificateMissing)
    else
      Success(Config(
        o.value.directory,
        o.value.identityProvider.value.name,
        o.value.identityProvider.value.certificate))
  }

  /** Every error has its own message, so the message identifies the failing guard. */
  lemma MessagesDistinct(e1: ConfigError, e2: ConfigError)
    ensures e1.Message() == e2.Message() <==> e1 == e2
  {
  }

  /** The error for a guard is the first failing guard: Validate fails with `e` exactly then. */
  lemma FirstFailingGuard(o: Option<AppOptions>, e: ConfigError)
    ensures Validate(o) == Failure(e) <==>
      !Present(o, e) && forall d: ConfigError :: d.Rank() < e.Rank() ==> Present(o, d)
  {
  }

  /** Without options, nothing else is looked at. */
  lemma NoOptions()
    ensures Validate(None) == Failure(OptionsMissing)
    ensures Validate(None).error.Message() == "Options are missing."
  {
  }

  /** A falsy directory is reported whatever the identity provider looks like. */
  lemma DirectoryCheckedBeforeProvider(directory: JsValue, provider: Option<IdentityProvider>)
    requires !Truthy(directory)
    ensures Validate(Some(AppOptions(directory, provider))) == Failure(DirectoryMissing)
  {
  }

  /** With a directory but no identity provider, the provider is reported. */
  lemma ProviderMissing(directory: JsValue)
    requires Truthy(directory)
    ensures Validate(Some(AppOptions(directory, None))) == Failure(IdentityProviderMissing)
  {
  }

  /** A falsy name is reported whatever the certificate is: name is checked first. */
  lemma NameCheckedBeforeCertificate(directory: JsValue, name: JsValue, certificate: JsValue)
    requires Truthy(directory) && !Truthy(name)
    ensures Validate(Some(AppOptions(directory, Some(IdentityProvider(name, certificate)))))
      == Failure(IdentityProviderNameMissing)
  {
  }

  /** With everything but a certificate, the certificate is reported. */
  lemma CertificateMissing(directory: JsValue, name: JsValue, certificate: JsValue)
    requires Truthy(directory) && Truthy(name) && !Truthy(certificate)
    ensures Validate(Some(AppOptions(directory, Some(IdentityProvider(name, certificate)))))
      == Failure(IdentityProviderCertificateMissing)
  {
  }
}
