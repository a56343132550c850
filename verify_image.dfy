/**
 * The guard chain of image-signature verification. The reference parser, the
 * key loader, the transparency-log key fetch and the cosign signature check
 * are foreign calls and come in as oracles (`Cosign`); the process
 * environment comes in as a map.
 */
module VerifyImage {
  import opened Wrappers
  import opened Text

  /** The process environment as `os.Getenv` reads it: an unset variable reads as "". */
  type Env = map<string, string>

  function Getenv(env: Env, key: string): string
  {
    if key in env then env[key] else ""
  }

  /** This file's `getenv`: the default replaces an empty value; nothing is trimmed. */
  function GetenvOr(env: Env, key: string, default: string): (v: string)
    ensures Getenv(env, key) != "" ==> v == Getenv(env, key)
    ensures Getenv(env, key) == "" ==> v == default
  {
    var v := Getenv(env, key);
    if v != "" then v else default
  }

  /**
   * The built-in fallback public key. Its body is a placeholder note in the
   * program too; only its framing lines matter here, and they are not blank.
   */
  const DefaultPublicKeyPem: string :=
    " \n" + PemBegin + "\n (placeholder: the key should come from the environment) \n" + PemEnd + "\n\n"

  const PemBegin: string := "-----BEGIN PUBLIC KEY-----"

  const PemEnd: string := "-----END PUBLIC KEY-----"

  /** Where the signature-checking public key is read from. */
  datatype KeySource = PemText(pem: string) | KeyFile(path: string)

  datatype ImageRef = ImageRef(repository: string, identifier: string)

  datatype PublicKey = PublicKey(material: string)

  datatype RekorKeys = RekorKeys(keys: seq<string>)

  /** The options handed to the signature check (`cosign.CheckOpts`). */
  datatype CheckOpts = CheckOpts(sigVerifier: PublicKey, rekorKeys: Option<RekorKeys>, ignoreTlog: bool)

  /**
   * The foreign calls: `name.ParseReference`, loading the public key (for PEM
   * text this includes the temporary file it is written to), fetching the
   * Rekor public keys, and `cosign.VerifyImageSignatures`. Errors are their texts.
   */
  datatype Cosign = Cosign(
    parseReference: string -> Result<ImageRef, string>,
    loadPublicKey: KeySource -> Result<PublicKey, string>,
    rekorPublicKeys: Result<RekorKeys, string>,
    verifySignatures: (ImageRef, CheckOpts) -> Option<string>)

  datatype VerifyError =
    | EmptyImage
    | SignatureArtifact
    | BadReference(cause: string)
    | KeyUnavailable(source: KeySource, cause: string)
    | TlogUnavailable(cause: string)
    | VerifyFailed(image: string, cause: string)

  /** A cosign signature tag such as `repo:sha256-<digest>.sig`, which is not an image to verify. */
  predicate IsSignatureArtifact(img: string)
  {
    HasSuffix(img, ".sig") && Contains(img, ":sha256-")
  }

  lemma DefaultPublicKeyNotBlank()
    ensures !Blank(DefaultPublicKeyPem)
  {
    assert PemBegin[0] == '-';
    assert DefaultPublicKeyPem[2] == PemBegin[0];
  }

  /**
   * The key-source precedence of `buildCosignCheckOpts`: the trimmed
   * COSIGN_PUB_KEY_PEM when it is not blank, else the trimmed built-in key
   * `defaultPem`, else the key file named by COSIGN_PUB_KEY (default
   * `./cosign.pub`). The built-in key is a parameter so that the operations
   * below hold for any key compiled in; `DefaultKeyWins` fixes it to the program's.
   */
  function KeySourceOf(env: Env, defaultPem: string): (src: KeySource)
    ensures !Blank(Getenv(env, "COSIGN_PUB_KEY_PEM")) ==> src == PemText(TrimSpace(Getenv(env, "COSIGN_PUB_KEY_PEM")))
    ensures Blank(Getenv(env, "COSIGN_PUB_KEY_PEM")) && !Blank(defaultPem) ==> src == PemText(TrimSpace(defaultPem))
    ensures Blank(Getenv(env, "COSIGN_PUB_KEY_PEM")) && Blank(defaultPem) ==>
      src == KeyFile(GetenvOr(env, "COSIGN_PUB_KEY", "./cosign.pub"))
    ensures src.PemText? ==> src.pem != "" && Trimmed(src.pem)
  {
    var fromEnv := TrimSpace(Getenv(env, "COSIGN_PUB_KEY_PEM"));
    var pem := if fromEnv == "" then TrimSpace(defaultPem) else fromEnv;
    if pem != "" then PemText(pem) else KeyFile(GetenvOr(env, "COSIGN_PUB_KEY", "./cosign.pub"))
  }

  /** With the program's built-in key the key-file fallback is dead: the key is always PEM text. */
  lemma DefaultKeyWins(env: Env)
    ensures KeySourceOf(env, DefaultPublicKeyPem).PemText?
  {
    DefaultPublicKeyNotBlank();
  }

  /** Skipping the transparency log is an explicit opt-in: the variable must read exactly "true". */
  predicate IgnoreTlog(env: Env)
  {
    GetenvOr(env, "COSIGN_IGNORE_TLOG", "false") == "true"
  }

  lemma IgnoreTlogExact(env: Env)
    ensures IgnoreTlog(env) <==> Getenv(env, "COSIGN_IGNORE_TLOG") == "true"
  {
  }

  /** `buildCosignCheckOpts` once the key source is chosen; the temporary key file is part of the key loader. */
  function BuildCheckOpts(src: KeySource, cosign: Cosign): (r: Result<CheckOpts, VerifyError>)
    ensures r.Ok? <==> cosign.loadPublicKey(src).Ok?
    ensures r.Ok? ==> r.value == CheckOpts(cosign.loadPublicKey(src).value, None, false)
    ensures r.Err? ==> r.error == KeyUnavailable(src, cosign.loadPublicKey(src).error)
  {
    match cosign.loadPublicKey(src)
    case Err(e) => Err(KeyUnavailable(src, e))
    case Ok(key) => Ok(CheckOpts(key, None, false))
  }

  /** The transparency-log step: fetched keys are used; otherwise fail closed unless opted out. */
  function TlogOptions(opts: CheckOpts, ignoreTlog: bool, cosign: Cosign): (r: Result<CheckOpts, VerifyError>)
    ensures cosign.rekorPublicKeys.Ok? ==> r == Ok(opts.(rekorKeys := Some(cosign.rekorPublicKeys.value)))
    ensures cosign.rekorPublicKeys.Err? && ignoreTlog ==> r == Ok(opts.(ignoreTlog := true))
    ensures cosign.rekorPublicKeys.Err? && !ignoreTlog ==> r == Err(TlogUnavailable(cosign.rekorPublicKeys.error))
  {
    match cosign.rekorPublicKeys
    case Ok(keys) => Ok(opts.(rekorKeys := Some(keys)))
    case Err(e) => if ignoreTlog then Ok(opts.(ignoreTlog := true)) else Err(TlogUnavailable(e))
  }

  /**
   * The part of `VerifyImageSignature` after the two guards: parse the
   * reference from the image as given, build the options, settle the
   * transparency log, check the signatures. Errors name the trimmed image `img`.
   */
  function CheckSignature(image: string, img: string, src: KeySource, ignoreTlog: bool, cosign: Cosign): (r: Option<VerifyError>)
    ensures cosign.parseReference(image).Err? ==> r == Some(BadReference(cosign.parseReference(image).error))
    ensures cosign.parseReference(image).Ok? && cosign.loadPublicKey(src).Err? ==>
      r == Some(KeyUnavailable(src, cosign.loadPublicKey(src).error))
    ensures r.Some? && r.value.VerifyFailed? ==> r.value.image == img
    ensures r.None? <==>
      && cosign.parseReference(image).Ok?
      && BuildCheckOpts(src, cosign).Ok?
      && TlogOptions(BuildCheckOpts(src, cosign).value, ignoreTlog, cosign).Ok?
      && cosign.verifySignatures(cosign.parseReference(image).value,
           TlogOptions(BuildCheckOpts(src, cosign).value, ignoreTlog, cosign).value).None?
  {
    match cosign.parseReference(image)
    case Err(e) => Some(BadReference(e))
    case Ok(ref) =>
      match BuildCheckOpts(src, cosign)
      case Err(e) => Some(e)
      case Ok(opts) =>
        match TlogOptions(opts, ignoreTlog, cosign)
        case Err(e) => Some(e)
        case Ok(opts') =>
          match cosign.verifySignatures(ref, opts')
          case Some(e) => Some(VerifyFailed(img, e))
          case None => None
  }

  /**
   * `VerifyImageSignature`: None is the nil error. The two guards look at the
   * trimmed image and reject before any foreign call is made.
   */
  function VerifyImageSignature(image: string, env: Env, defaultPem: string, cosign: Cosign): (r: Option<VerifyError>)
    ensures Blank(image) ==> r == Some(EmptyImage)
    ensures !Blank(image) && IsSignatureArtifact(TrimSpace(image)) ==> r == Some(SignatureArtifact)
    ensures !Blank(image) && !IsSignatureArtifact(TrimSpace(image)) ==>
      r == CheckSignature(image, TrimSpace(image), KeySourceOf(env, defaultPem), IgnoreTlog(env), cosign)
  {
    var img := TrimSpace(image);
    if img == "" then Some(EmptyImage)
    else if IsSignatureArtifact(img) then Some(SignatureArtifact)
    else CheckSignature(image, img, KeySourceOf(env, defaultPem), IgnoreTlog(env), cosign)
  }

  /** The two guards reject before any foreign call: the oracles cannot change the verdict. */
  lemma GuardsPrecedeForeignCalls(image: string, env: Env, defaultPem: string, c1: Cosign, c2: Cosign)
    requires Blank(image) || IsSignatureArtifact(TrimSpace(image))
    ensures VerifyImageSignature(image, env, defaultPem, c1) == VerifyImageSignature(image, env, defaultPem, c2)
    ensures VerifyImageSignature(image, env, defaultPem, c1).Some?
  {
  }

  /** Without the Rekor keys and without the exact opt-out, verification fails closed. */
  lemma TlogFailsClosed(image: string, env: Env, defaultPem: string, cosign: Cosign)
    requires !Blank(image) && !IsSignatureArtifact(TrimSpace(image))
    requires cosign.parseReference(image).Ok? && cosign.loadPublicKey(KeySourceOf(env, defaultPem)).Ok?
    requires cosign.rekorPublicKeys.Err?
    ensures Getenv(env, "COSIGN_IGNORE_TLOG") != "true" ==>
      VerifyImageSignature(image, env, defaultPem, cosign) == Some(TlogUnavailable(cosign.rekorPublicKeys.error))
    ensures Getenv(env, "COSIGN_IGNORE_TLOG") == "true" ==>
      (VerifyImageSignature(image, env, defaultPem, cosign).None? <==>
       cosign.verifySignatures(cosign.parseReference(image).value,
         CheckOpts(cosign.loadPublicKey(KeySourceOf(env, defaultPem)).value, None, true)).None?)
  {
    IgnoreTlogExact(env);
  }
}
