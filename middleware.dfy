/**
 * The control plane's slug check, run before a plugin route's handler.
 * Lengths count characters; for the ASCII slugs it accepts these equal the
 * byte lengths Go measures.
 */
module Middleware {
  import opened Wrappers

  const MaxSlugLength: nat := 50

  /** A character `isValidSlugFormat` allows: a lower-case letter, a digit or '-'. */
  predicate SlugChar(c: char) { ('a' <= c <= 'z') || ('0' <= c <= '9') || c == '-' }

  /** `isValidSlugFormat`: scans the slug and stops at the first character outside the set. */
  function IsValidSlugFormat(slug: string): (r: bool)
    ensures r <==> forall i :: 0 <= i < |slug| ==> SlugChar(slug[i])
  {
    if slug == [] then true
    else if !SlugChar(slug[0]) then false
    else
      var rest := IsValidSlugFormat(slug[1..]);
      assert forall i :: 1 <= i < |slug| ==> slug[i] == slug[1..][i - 1];
      rest
  }

  /** `validateSlug`: emptiness first, then length, then characters. */
  function ValidateSlug(slug: string): Outcome<string>
  {
    if slug == "" then Fail("slug cannot be empty")
    else if |slug| > MaxSlugLength then Fail("slug too long (max 50 characters)")
    else if !IsValidSlugFormat(slug) then Fail("slug contains invalid characters (use only letters, numbers, hyphens)")
    else Pass
  }

  /**
   * A slug is accepted exactly when it is non-empty, at most 50 characters
   * long and made of [a-z0-9-] alone; an over-long slug is reported as too
   * long whatever characters it holds.
   */
  lemma ValidateSlugIff(slug: string)
    ensures ValidateSlug(slug).Pass? <==>
      slug != "" && |slug| <= MaxSlugLength && forall i :: 0 <= i < |slug| ==> SlugChar(slug[i])
    ensures ValidateSlug("") == Fail("slug cannot be empty")
    ensures |slug| > MaxSlugLength ==> ValidateSlug(slug) == Fail("slug too long (max 50 characters)")
  {
  }

  /** The format scan alone accepts the empty slug; only `ValidateSlug` refuses it. */
  lemma EmptySlugFormat()
    ensures IsValidSlugFormat("")
    ensures ValidateSlug("").Fail?
  {
  }

  /** Short slugs and slugs with a leading or trailing hyphen pass: there is no lower length bound and no hyphen rule. */
  lemma LooseSlugsAccepted()
    ensures ValidateSlug("a").Pass?
    ensures ValidateSlug("-a-").Pass?
    ensures ValidateSlug("--").Pass?
  {
    assert IsValidSlugFormat("-a-");
    assert IsValidSlugFormat("--");
  }

  /** What `ValidateSlugMiddleware` does with a request: pass it on, or answer 400 with the validation message. */
  datatype Gate = PassOn | Reject(message: string, status: int)

  function ValidateSlugMiddleware(slug: string): (g: Gate)
    ensures g.PassOn? <==> ValidateSlug(slug).Pass?
    ensures g.Reject? ==> g.status == 400 && g.message == ValidateSlug(slug).error
  {
    match ValidateSlug(slug)
    case Pass => PassOn
    case Fail(e) => Reject(e, 400)
  }
}
