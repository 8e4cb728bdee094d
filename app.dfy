/** The landing page's component state and the handlers that change it: the
    lead submission shared by the hero and contact forms, the carousel tick,
    the "New Inquiry" dismiss, and the language and role toggles. */
module App {
  import opened Payload
  import opened Relay
  import opened Content
  import Carousel

  /** The role toggle of the contact form. */
  datatype UserRole = Farmer | Dealer

  /** The string the page stores in `userType` and sends as `user_role`. */
  function RoleName(r: UserRole): (s: string)
    ensures s == "farmer" || s == "dealer"
    ensures r == Farmer <==> s == "farmer"
  {
    match r
    case Farmer => "farmer"
    case Dealer => "dealer"
  }

  /** The two forms whose submit handlers call the shared sender. */
  datatype Form = Hero | Contact

  /** The form-type strings the two forms pass to the sender. */
  const LaunchNotification := "Launch Notification"
  const Inquiry := "Inquiry"

  /** `f` is what `FormData` can read from the form `target`: the hero form has
      only an email input, so its other names read as absent (`null`); the
      contact form has all five inputs, so each reads as a string. */
  predicate HasInputsOf(target: Form, f: FormFields) {
    match target
    case Hero => f.email.Some? && f.fullName.None? && f.phone.None? && f.city.None? && f.message.None?
    case Contact => f.email.Some? && f.fullName.Some? && f.phone.Some? && f.city.Some? && f.message.Some?
  }

  /** What `FormData` reads from a form after `form.reset()`: every input the
      form has is empty again, and the names it lacks stay absent. */
  function Blank(target: Form): (f: FormFields)
    ensures HasInputsOf(target, f)
    ensures f.email == Some("")
    ensures !Present(f.fullName) && !Present(f.phone) && !Present(f.city) && !Present(f.message)
    ensures target == Hero ==> f.fullName.None? && f.phone.None? && f.city.None? && f.message.None?
    ensures target == Contact ==> f.fullName == f.phone == f.city == f.message == Some("")
  {
    match target
    case Hero => FormFields(None, Some(""), None, None, None)
    case Contact => FormFields(Some(""), Some(""), Some(""), Some(""), Some(""))
  }

  class Page {
    var lang: Lang
    var userType: UserRole
    var activeSlide: nat
    /** One flag shared by both forms' submit buttons. */
    var isSubmitting: bool
    var heroSuccess: bool
    var contactSuccess: bool
    /** The current contents of each form's inputs. */
    var heroInputs: FormFields
    var contactInputs: FormFields

    /** The state between two events: the active slide indexes the gallery,
        no submission is in flight, and each form holds the inputs it has. */
    ghost predicate Valid()
      reads this
    {
      && activeSlide < |Carousel.Gallery|
      && !isSubmitting
      && HasInputsOf(Hero, heroInputs)
      && HasInputsOf(Contact, contactInputs)
    }

    /** Whether a form is on the page: each form is replaced by its success
        panel while its success flag is set. */
    predicate Mounted(target: Form)
      reads this
    {
      match target
      case Hero => !heroSuccess
      case Contact => !contactSuccess
    }

    /** The component as it mounts. */
    constructor ()
      ensures Valid()
      ensures lang == En && userType == Farmer && activeSlide == Carousel.FirstSlide
      ensures !isSubmitting && !heroSuccess && !contactSuccess
      ensures heroInputs == Blank(Hero) && contactInputs == Blank(Contact)
    {
      lang := En;
      userType := Farmer;
      activeSlide := Carousel.FirstSlide;
      isSubmitting := false;
      heroSuccess := false;
      contactSuccess := false;
      heroInputs := Blank(Hero);
      contactInputs := Blank(Contact);
    }

    function Inputs(target: Form): FormFields
      reads this
    {
      match target
      case Hero => heroInputs
      case Contact => contactInputs
    }

    /** The text table for the current language, `t = content[lang]`. */
    function Text(): Bundle
      reads this
    {
      Lookup(lang)
    }

    /** The slide the hero image shows, `galleryItems[activeSlide]`. */
    function CurrentSlide(): (s: Carousel.Slide)
      reads this
      requires Valid()
      ensures s in Carousel.Gallery
    {
      Carousel.Gallery[activeSlide]
    }

    /** The visitor types into a form's inputs (done by the browser, not the script). */
    method Enter(target: Form, fields: FormFields)
      requires Valid() && Mounted(target) && HasInputsOf(target, fields)
      modifies this
      ensures Valid()
      ensures Inputs(target) == fields
      ensures target == Hero ==> contactInputs == old(contactInputs)
      ensures target == Contact ==> heroInputs == old(heroInputs)
      ensures lang == old(lang) && userType == old(userType) && activeSlide == old(activeSlide)
      ensures isSubmitting == old(isSubmitting)
      ensures heroSuccess == old(heroSuccess) && contactSuccess == old(contactSuccess)
    {
      if target == Hero {
        heroInputs := fields;
      } else {
        contactInputs := fields;
      }
    }

    /** One relay call. It is only made while a submission is in flight. */
    method Post(template: Template, params: TemplateParams) returns (s: Send)
      requires isSubmitting
      ensures s == Send(template, params)
    {
      s := Send(template, params);
    }

    /** `sendEmail(e, formType)` with `e.target` the form `target`. The relay is
        not modelled: `adminOk` and `userOk` say whether each awaited send
        resolves. `sends` lists the relay calls made, in order; each is made
        through `Post`, so `isSubmitting` is set while it is in flight. */
    method SendEmail(target: Form, formType: string, adminOk: bool, userOk: bool)
      returns (sends: seq<Send>)
      requires Valid()
      modifies this
      ensures Valid()
      ensures sends == Dispatch(BuildParams(formType, old(Inputs(target)), RoleName(old(userType))), adminOk)
      ensures !isSubmitting
      ensures heroSuccess == (old(heroSuccess) || (Delivered(adminOk, userOk) && formType == LaunchNotification))
      ensures contactSuccess == (old(contactSuccess) || (Delivered(adminOk, userOk) && formType != LaunchNotification))
      ensures Inputs(target) == if Delivered(adminOk, userOk) then Blank(target) else old(Inputs(target))
      ensures !adminOk ==> |sends| == 1 && heroSuccess == old(heroSuccess)
                           && contactSuccess == old(contactSuccess) && Inputs(target) == old(Inputs(target))
      ensures target == Hero ==> contactInputs == old(contactInputs)
      ensures target == Contact ==> heroInputs == old(heroInputs)
      ensures lang == old(lang) && userType == old(userType) && activeSlide == old(activeSlide)
    {
      isSubmitting := true;
      var params := BuildParams(formType, Inputs(target), RoleName(userType));
      var admin := Post(AdminTemplate, params);
      sends := [admin];
      if adminOk {
        var user := Post(UserTemplate, params);
        sends := sends + [user];
        if userOk {
          if formType == LaunchNotification {
            heroSuccess := true;
          } else {
            contactSuccess := true;
          }
          if target == Hero {
            heroInputs := Blank(Hero);
          } else {
            contactInputs := Blank(Contact);
          }
        }
      }
      isSubmitting := false;
    }

    /** The hero form's submit handler, reachable while the hero form is shown. */
    method OnHeroSubmit(adminOk: bool, userOk: bool) returns (sends: seq<Send>)
      requires Valid() && Mounted(Hero)
      modifies this
      ensures Valid()
      ensures sends == Dispatch(BuildParams(LaunchNotification, old(heroInputs), RoleName(old(userType))), adminOk)
      ensures !isSubmitting
      ensures heroSuccess == (old(heroSuccess) || Delivered(adminOk, userOk))
      ensures contactSuccess == old(contactSuccess)
      ensures heroInputs == if Delivered(adminOk, userOk) then Blank(Hero) else old(heroInputs)
      ensures contactInputs == old(contactInputs)
      ensures lang == old(lang) && userType == old(userType) && activeSlide == old(activeSlide)
    {
      sends := SendEmail(Hero, LaunchNotification, adminOk, userOk);
    }

    /** The contact form's submit handler, reachable while the contact form is shown. */
    method OnContactSubmit(adminOk: bool, userOk: bool) returns (sends: seq<Send>)
      requires Valid() && Mounted(Contact)
      modifies this
      ensures Valid()
      ensures sends == Dispatch(BuildParams(Inquiry, old(contactInputs), RoleName(old(userType))), adminOk)
      ensures !isSubmitting
      ensures heroSuccess == old(heroSuccess)
      ensures contactSuccess == (old(contactSuccess) || Delivered(adminOk, userOk))
      ensures contactInputs == if Delivered(adminOk, userOk) then Blank(Contact) else old(contactInputs)
      ensures heroInputs == old(heroInputs)
      ensures lang == old(lang) && userType == old(userType) && activeSlide == old(activeSlide)
    {
      sends := SendEmail(Contact, Inquiry, adminOk, userOk);
    }

    /** The interval callback: advance the carousel by one slide. */
    method Tick()
      requires Valid()
      modifies this`activeSlide
      ensures Valid()
      ensures activeSlide == Carousel.Next(old(activeSlide))
    {
      activeSlide := Carousel.Next(activeSlide);
    }

    /** The "New Inquiry" button on the contact success panel: leave the panel;
        the contact form mounts again, freshly created and so empty. */
    method NewInquiry()
      requires Valid() && contactSuccess
      modifies this`contactSuccess, this`contactInputs
      ensures Valid() && Mounted(Contact)
      ensures !contactSuccess
      ensures contactInputs == Blank(Contact)
    {
      contactSuccess := false;
      contactInputs := Blank(Contact);
    }

    /** The EN / Hindi toggle buttons. */
    method SetLang(l: Lang)
      requires Valid()
      modifies this`lang
      ensures Valid()
      ensures lang == l && Text() == Lookup(l)
      ensures Text().contactMail == old(Text().contactMail) && Text().contactPhone == old(Text().contactPhone)
    {
      lang := l;
    }

    /** The "I am a Farmer" / "I am a Dealer" toggle inside the contact form. */
    method SetUserType(r: UserRole)
      requires Valid() && Mounted(Contact)
      modifies this`userType
      ensures Valid()
      ensures userType == r
    {
      userType := r;
    }
  }

  /** A visitor leaves only an e-mail address in the hero form of a freshly
      mounted page and both sends succeed: two sends with the same defaults
      filled in, the hero success panel shown, the contact form untouched. */
  method HeroSignupScenario(address: string) returns (sends: seq<Send>)
    ensures |sends| == 2
    ensures sends[0].template == AdminTemplate && sends[1].template == UserTemplate
    ensures sends[0].params == sends[1].params
    ensures sends[0].params == TemplateParams(LaunchNotification, DefaultName, Some(address),
                                              NotProvided, NotProvided, DefaultMessage, "farmer")
  {
    var page := new Page();
    page.Enter(Hero, Blank(Hero).(email := Some(address)));
    sends := page.OnHeroSubmit(true, true);
    assert page.heroSuccess && !page.contactSuccess && !page.isSubmitting;
    assert page.heroInputs == Blank(Hero);
  }

  /** From mount, the carousel's interval shows slides 0, 1 and 2 and, after
      the third tick, slide 0 again. */
  method CarouselFromMount() returns (shown: seq<nat>)
    ensures shown == [0, 1, 2, 0]
    ensures shown[|Carousel.Gallery|] == Carousel.FirstSlide
  {
    var page := new Page();
    shown := [page.activeSlide];
    page.Tick();
    shown := shown + [page.activeSlide];
    page.Tick();
    shown := shown + [page.activeSlide];
    page.Tick();
    shown := shown + [page.activeSlide];
  }
}
