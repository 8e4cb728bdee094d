/** The template parameters that one lead submission sends to the email relay,
    built from the submitted form's fields with the page's fallback defaults. */
module Payload {

  datatype Option<+T> = None | Some(value: T)

  /** What `FormData.get(name)` yields for one input: `None` when the form has
      no input of that name (JavaScript `null`), `Some(s)` otherwise. */
  type Field = Option<string>

  /** JavaScript truthiness of a field value: `null` and `""` are falsy. */
  predicate Present(v: Field) {
    v.Some? && v.value != ""
  }

  /** `v || fallback`: the value itself when it is truthy, the fallback otherwise. */
  function OrElse(v: Field, fallback: string): string {
    if Present(v) then v.value else fallback
  }

  const DefaultName := "Interested User"
  const NotProvided := "Not provided"
  const DefaultMessage := "User requested launch notification."

  /** The named inputs a lead form may carry, as read through `FormData`. */
  datatype FormFields = FormFields(
    fullName: Field,
    email: Field,
    phone: Field,
    city: Field,
    message: Field)

  /** The object handed to the relay for both templates. */
  datatype TemplateParams = TemplateParams(
    formType: string,
    fullName: string,
    email: Field,
    phone: string,
    city: string,
    message: string,
    userRole: string)

  /** `out` is what `v || fallback` gives: the entered value kept verbatim when
      there is one, exactly the fallback when the input is absent or empty. */
  predicate FilledFrom(v: Field, out: string, fallback: string) {
    (Present(v) ==> out == v.value) && (!Present(v) ==> out == fallback)
  }

  /** Builds the template parameters of one submission. */
  function BuildParams(formType: string, fields: FormFields, userRole: string): (p: TemplateParams)
    ensures p.formType == formType
    ensures p.email == fields.email
    ensures p.userRole == userRole
    ensures FilledFrom(fields.fullName, p.fullName, DefaultName)
    ensures FilledFrom(fields.phone, p.phone, NotProvided)
    ensures FilledFrom(fields.city, p.city, NotProvided)
    ensures FilledFrom(fields.message, p.message, DefaultMessage)
    ensures p.fullName != "" && p.phone != "" && p.city != "" && p.message != ""
  {
    TemplateParams(
      formType,
      OrElse(fields.fullName, DefaultName),
      fields.email,
      OrElse(fields.phone, NotProvided),
      OrElse(fields.city, NotProvided),
      OrElse(fields.message, DefaultMessage),
      userRole)
  }

  /** Turns every absent optional input into an empty one; `email` is left alone. */
  function BlankAbsentOptionals(f: FormFields): (g: FormFields)
    ensures g.email == f.email
  {
    FormFields(Blanked(f.fullName), f.email, Blanked(f.phone), Blanked(f.city), Blanked(f.message))
  }

  function Blanked(v: Field): (w: Field)
    ensures w.Some?
    ensures Present(w) == Present(v)
  {
    if v.None? then Some("") else v
  }

  /** A missing optional input and an empty one give the same parameters. */
  lemma AbsentLikeEmpty(formType: string, f: FormFields, userRole: string)
    ensures BuildParams(formType, BlankAbsentOptionals(f), userRole) == BuildParams(formType, f, userRole)
  {
  }

  /** No default is applied to `email`: a missing email input reaches the relay
      as `null`, an empty one as the empty string. */
  lemma EmailNotDefaulted(formType: string, f: FormFields, userRole: string)
    requires f.email.None?
    ensures BuildParams(formType, f, userRole) != BuildParams(formType, f.(email := Some("")), userRole)
  {
  }

  /** The only way to see a default in a field is an absent input, an empty
      input, or an input that literally equals the default. */
  lemma DefaultMeansMissingOrLiteral(formType: string, f: FormFields, userRole: string)
    ensures BuildParams(formType, f, userRole).fullName == DefaultName
        <==> (!Present(f.fullName) || f.fullName.value == DefaultName)
    ensures BuildParams(formType, f, userRole).phone == NotProvided
        <==> (!Present(f.phone) || f.phone.value == NotProvided)
    ensures BuildParams(formType, f, userRole).city == NotProvided
        <==> (!Present(f.city) || f.city.value == NotProvided)
    ensures BuildParams(formType, f, userRole).message == DefaultMessage
        <==> (!Present(f.message) || f.message.value == DefaultMessage)
  {
  }

  /** The form fields that re-enter a set of parameters as typed input. */
  function AsFields(p: TemplateParams): (f: FormFields)
    ensures f.email == p.email
  {
    FormFields(Some(p.fullName), p.email, Some(p.phone), Some(p.city), Some(p.message))
  }

  /** Filling defaults is idempotent: submitting the filled parameters again as
      input gives back the same parameters. */
  lemma FillIdempotent(formType: string, f: FormFields, userRole: string)
    ensures var p := BuildParams(formType, f, userRole);
      BuildParams(formType, AsFields(p), userRole) == p
  {
  }
}
