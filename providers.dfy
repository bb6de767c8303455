/**
 * Credential-provider dispatch (`getOrCreateUser` in the JWT filter): the provider name
 * in a new-token request picks one exchange strategy, ignoring case.
 */
module Providers {
  import opened Wrappers
  import opened JavaStrings

  /** The strategies the dispatcher knows; the WeChat branch is commented out in the source. */
  datatype Provider =
    | Password | VerificationCode | Facebook | Google | GitHub
    | LinkedIn | Twitter | Microsoft | OAuth2 | Ldap
  {
    /** The lower-case name the dispatcher compares against. */
    function Key(): string {
      match this
      case Password => "password"
      case VerificationCode => "verificationcode"
      case Facebook => "facebook"
      case Google => "google"
      case GitHub => "github"
      case LinkedIn => "linkedin"
      case Twitter => "twitter"
      case Microsoft => "microsoft"
      case OAuth2 => "oauth2"
      case Ldap => "ldap"
    }
  }

  /** The dispatch chain, tried in source order; `None` plays the role of the `null` result. */
  function ProviderOf(name: string): (r: Option<Provider>)
    ensures r.Some? ==> EqualsIgnoreCase(name, r.value.Key())
  {
    if EqualsIgnoreCase(name, "password") then Some(Password)
    else if EqualsIgnoreCase(name, "verificationcode") then Some(VerificationCode)
    else if EqualsIgnoreCase(name, "facebook") then Some(Facebook)
    else if EqualsIgnoreCase(name, "google") then Some(Google)
    else if EqualsIgnoreCase(name, "github") then Some(GitHub)
    else if EqualsIgnoreCase(name, "linkedin") then Some(LinkedIn)
    else if EqualsIgnoreCase(name, "twitter") then Some(Twitter)
    else if EqualsIgnoreCase(name, "microsoft") then Some(Microsoft)
    else if EqualsIgnoreCase(name, "oauth2") then Some(OAuth2)
    else if EqualsIgnoreCase(name, "ldap") then Some(Ldap)
    else None
  }

  /** Two names equal up to case compare alike against any third. */
  lemma SameVerdict(a: string, b: string, k: string)
    requires EqualsIgnoreCase(a, b)
    ensures EqualsIgnoreCase(a, k) == EqualsIgnoreCase(b, k)
  {
    if EqualsIgnoreCase(a, k) {
      EqualsIgnoreCaseTransitive(b, a, k);
    }
    if EqualsIgnoreCase(b, k) {
      EqualsIgnoreCaseTransitive(a, b, k);
    }
  }

  /** Names that differ only in letter case select the same provider. */
  lemma ProviderOfIgnoresCase(a: string, b: string)
    requires EqualsIgnoreCase(a, b)
    ensures ProviderOf(a) == ProviderOf(b)
  {
    SameVerdict(a, b, "password");
    SameVerdict(a, b, "verificationcode");
    SameVerdict(a, b, "facebook");
    SameVerdict(a, b, "google");
    SameVerdict(a, b, "github");
    SameVerdict(a, b, "linkedin");
    SameVerdict(a, b, "twitter");
    SameVerdict(a, b, "microsoft");
    SameVerdict(a, b, "oauth2");
    SameVerdict(a, b, "ldap");
  }

  /** Two names that fold to different letters at some position are different names. */
  lemma DiffersAt(a: string, b: string, i: nat)
    requires i < |a| && i < |b| && ToLowerChar(a[i]) != ToLowerChar(b[i])
    ensures !EqualsIgnoreCase(a, b)
  {
  }

  /** Every provider is reached by its own name, so no branch shadows another. */
  lemma ProviderOfKey(p: Provider)
    ensures ProviderOf(p.Key()) == Some(p)
  {
    // Keys of equal length differ in their first or second letter.
    match p
    case Facebook => DiffersAt("facebook", "password", 0);
    case GitHub => DiffersAt("github", "google", 1);
    case LinkedIn =>
      DiffersAt("linkedin", "password", 0);
      DiffersAt("linkedin", "facebook", 0);
    case OAuth2 =>
      DiffersAt("oauth2", "google", 0);
      DiffersAt("oauth2", "github", 0);
    case _ =>
  }

  /** The WeChat strategy is switched off: its name falls through to `null`. */
  lemma WechatIsUnknown()
    ensures ProviderOf("wechat") == None
  {
    DiffersAt("wechat", "google", 0);
    DiffersAt("wechat", "github", 0);
    DiffersAt("wechat", "oauth2", 0);
  }
}
