/** The plugin's HTTP answers: the fixed webhook responses and the
    cancel/success views, which redirect to a configured URL or render the
    plugin's default page. */
module Views {
  import opened Settings

  datatype Response = Response(status: int, body: string)

  const InvalidPayload := Response(400, "Invalid payload")
  const InvalidSignature := Response(400, "Invalid signature")
  const EventIgnored := Response(200, "Event ignored")
  const InvalidReference := Response(400, "Invalid session reference")
  const MissingBasket := Response(400, "Missing basket")
  const MissingOrder := Response(400, "Missing order")
  const OrderFulfilled := Response(200, "Order fulfilled")

  datatype ViewResult = Redirect(url: string) | Render(template: string)

  const CancelTemplate := "salesman_stripe/cancel.html"
  const SuccessTemplate := "salesman_stripe/success.html"

  /** `cancel_view`: redirect when the cancel URL is non-empty, else render. */
  function CancelView(conf: Conf): (r: ViewResult)
    ensures r.Redirect? <==> CancelUrl(conf) != ""
    ensures r.Redirect? ==> r.url == CancelUrl(conf)
    ensures r.Render? ==> r.template == CancelTemplate
  {
    if CancelUrl(conf) != "" then Redirect(CancelUrl(conf)) else Render(CancelTemplate)
  }

  /** `success_view`: redirect when the success URL is non-empty, else render. */
  function SuccessView(conf: Conf): (r: ViewResult)
    ensures r.Redirect? <==> SuccessUrl(conf) != ""
    ensures r.Redirect? ==> r.url == SuccessUrl(conf)
    ensures r.Render? ==> r.template == SuccessTemplate
  {
    if SuccessUrl(conf) != "" then Redirect(SuccessUrl(conf)) else Render(SuccessTemplate)
  }

  /** Both URLs default to "", so an unconfigured shop renders both pages;
      a URL setting of None is the text "None" and is redirected to. */
  lemma ViewsWithoutUrls(conf: Conf)
    ensures CancelUrlName !in conf ==> CancelView(conf) == Render(CancelTemplate)
    ensures SuccessUrlName !in conf ==> SuccessView(conf) == Render(SuccessTemplate)
    ensures CancelUrlName in conf && conf[CancelUrlName] == PyNone ==> CancelView(conf) == Redirect("None")
    ensures SuccessUrlName in conf && conf[SuccessUrlName] == PyNone ==> SuccessView(conf) == Redirect("None")
  {
  }
}
