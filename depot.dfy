/**
 * getApp itself (lib/getApp.js): validate the options, then build an
 * Express application whose stack is CORS, then limes' token
 * verification, then datendepot's file-backed blob storage, each
 * configured from the validated options.
 */
module Depot {
  import opened Wrappers
  import opened Options
  import opened Express

  /** The storage kind getApp asks datendepot for. */
  const FileStorage: string := "File"

  /** The stack getApp installs for a configuration, in installation order. */
  function Pipeline(c: Config): seq<Middleware> {
    [ Cors,
      VerifyToken(TokenConfig(c.identityProviderName, c.certificate)),
      BlobStorage(StorageConfig(FileStorage, c.directory)) ]
  }

  /** The index of each middleware in `Pipeline`. */
  const CorsStage: nat := 0
  const VerifierStage: nat := 1
  const StorageStage: nat := 2

  /**
   * getApp: throws (here: fails with) the message of the first guard
   * that fails; otherwise returns a new application whose stack is
   * exactly the pipeline for the validated options.
   */
  method GetApp(o: Option<AppOptions>) returns (r: Result<App, string>)
    ensures r.Failure? <==> Validate(o).Failure?
    ensures r.Failure? ==> r.error == Validate(o).error.Message()
    ensures r.Success? ==> fresh(r.value) && r.value.stack == Pipeline(Validate(o).value)
  {
    var v := Validate(o);
    if v.Failure? {
      return Failure(v.error.Message());
    }
    var token := TokenConfig(v.value.identityProviderName, v.value.certificate);
    var app := new App();
    app.Use(Cors);
    app.Use(VerifyToken(token));
    app.Use(BlobStorage(StorageConfig(FileStorage, v.value.directory)));
    return Success(app);
  }

  /**
   * Valid options reach the middleware unchanged: the verifier gets the
   * given provider name and certificate, the storage gets kind 'File'
   * and the given directory, and the stages come in the order CORS,
   * verifier, storage.
   */
  lemma ConfigurationPassedThrough(o: Option<AppOptions>)
    requires Validate(o).Success?
    ensures o.Some? && o.value.identityProvider.Some?
    ensures var p := Pipeline(Validate(o).value);
      && |p| == 3
      && p[CorsStage] == Cors
      && p[VerifierStage] == VerifyToken(TokenConfig(
           o.value.identityProvider.value.name, o.value.identityProvider.value.certificate))
      && p[StorageStage] == BlobStorage(StorageConfig("File", o.value.directory))
  {
  }

  /**
   * Every request is first seen by CORS, exactly as it arrived; when
   * CORS answers it, that answer is the outcome of dispatch and neither
   * the verifier nor storage is called.
   */
  lemma CorsSeesEveryRequest(c: Config, b: Behaviour, req: Request)
    ensures Reaches(Pipeline(c), b, req, CorsStage) == Some(req)
    ensures b.cors(req).Halt? ==> Run(Pipeline(c), b, req) == Responded(b.cors(req).response, CorsStage)
    ensures b.cors(req).Halt? ==>
      Reaches(Pipeline(c), b, req, VerifierStage).None? && Reaches(Pipeline(c), b, req, StorageStage).None?
  {
    if b.cors(req).Halt? {
      HaltingStageAnswers(Pipeline(c), b, req, CorsStage);
    }
  }

  /**
   * A request the verifier answers (rejects) never reaches storage, and
   * the verifier's answer is the one sent back.
   */
  lemma RejectedRequestNeverStored(c: Config, b: Behaviour, req: Request)
    requires Reaches(Pipeline(c), b, req, VerifierStage).Some?
    requires b.verifyToken(Pipeline(c)[VerifierStage].token, Reaches(Pipeline(c), b, req, VerifierStage).value).Halt?
    ensures Reaches(Pipeline(c), b, req, StorageStage).None?
    ensures Run(Pipeline(c), b, req) ==
      Responded(b.verifyToken(Pipeline(c)[VerifierStage].token,
        Reaches(Pipeline(c), b, req, VerifierStage).value).response, VerifierStage)
  {
    HaltingStageAnswers(Pipeline(c), b, req, VerifierStage);
  }

  /**
   * Storage only ever sees requests the verifier, configured with the
   * given provider, passed on: what storage receives is exactly what
   * the verifier handed to `next`.
   */
  lemma StorageSeesOnlyVerifiedRequests(c: Config, b: Behaviour, req: Request)
    requires Reaches(Pipeline(c), b, req, StorageStage).Some?
    ensures Reaches(Pipeline(c), b, req, VerifierStage).Some?
    ensures b.verifyToken(TokenConfig(c.identityProviderName, c.certificate),
      Reaches(Pipeline(c), b, req, VerifierStage).value)
      == Continue(Reaches(Pipeline(c), b, req, StorageStage).value)
  {
  }

  /** Any answer sent by storage is for a request the verifier let through. */
  lemma StorageAnswersOnlyVerifiedRequests(c: Config, b: Behaviour, req: Request)
    requires Run(Pipeline(c), b, req).Responded?
    requires Run(Pipeline(c), b, req).stage == StorageStage
    ensures Reaches(Pipeline(c), b, req, VerifierStage).Some?
    ensures b.verifyToken(TokenConfig(c.identityProviderName, c.certificate),
      Reaches(Pipeline(c), b, req, VerifierStage).value).Continue?
  {
    ResponseFromReachedStage(Pipeline(c), b, req);
    StorageSeesOnlyVerifiedRequests(c, b, req);
  }
}
