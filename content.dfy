/** The page's two-language text table and its lookup by the current language. */
module Content {

  datatype Lang = En | Hi

  /** The entries of one language's table that the lead forms and the
      contact panel show. */
  datatype Bundle = Bundle(
    tag: string,
    notifyBtn: string,
    submit: string,
    successMsg: string,
    contactMail: string,
    contactPhone: string)

  const ContactMail := "agrovitaorganics@gmail.com"
  const ContactPhone := "+91 95103 04547"

  /** `content[lang]`: total over the two language keys the page can set. */
  function Lookup(lang: Lang): (b: Bundle)
    ensures b.contactMail == ContactMail && b.contactPhone == ContactPhone
    ensures b.notifyBtn != "" && b.submit != "" && b.successMsg != ""
  {
    match lang
    case En => Bundle("Launching Soon", "Notify Me", "Send Inquiry",
                      "Email sent! Check your inbox.", ContactMail, ContactPhone)
    case Hi => Bundle("जल्द आ रहा है", "सूचित करें", "पूछताछ भेजें",
                      "ईमेल भेजा गया! अपना इनबॉक्स जांचें।", ContactMail, ContactPhone)
  }
}
