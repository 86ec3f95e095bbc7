/** The plugin's settings resolver (`AppSettings` in salesman_stripe/conf.py):
    named lookups in the Django settings with defaults, and a fail-fast error
    for the two required secrets. */
module Settings {
  import opened Common
  import Text

  /** The Python values a setting may hold, as far as truthiness and `str()` go. */
  datatype PyValue = PyNone | PyBool(b: bool) | PyInt(i: int) | PyStr(s: string)

  /** The Django settings module: attribute name to value. */
  type Conf = map<string, PyValue>

  /** Django's `ImproperlyConfigured`. */
  datatype ConfigError = ImproperlyConfigured(message: string)

  const SecretKeyName := "SALESMAN_STRIPE_SECRET_KEY"
  const WebhookSecretName := "SALESMAN_STRIPE_WEBHOOK_SECRET"
  const PaymentLabelName := "SALESMAN_STRIPE_PAYMENT_LABEL"
  const DefaultCurrencyName := "SALESMAN_STRIPE_DEFAULT_CURRENCY"
  const CancelUrlName := "SALESMAN_STRIPE_CANCEL_URL"
  const SuccessUrlName := "SALESMAN_STRIPE_SUCCESS_URL"
  const PaidStatusName := "SALESMAN_STRIPE_PAID_STATUS"

  /** Python truthiness. */
  predicate Truthy(v: PyValue) {
    match v
    case PyNone => false
    case PyBool(b) => b
    case PyInt(i) => i != 0
    case PyStr(s) => s != ""
  }

  /** Python's `str()`. */
  function Str(v: PyValue): string {
    match v
    case PyNone => "None"
    case PyBool(b) => if b then "True" else "False"
    case PyInt(i) => Text.IntToString(i)
    case PyStr(s) => s
  }

  /** `_setting`: `getattr(settings, name, default)`. */
  function Setting(conf: Conf, name: string, default: PyValue): (v: PyValue)
    ensures name in conf ==> v == conf[name]
    ensures name !in conf ==> v == default
  {
    if name in conf then conf[name] else default
  }

  function MissingMessage(name: string): string {
    "Missing `" + name + "` in your settings."
  }

  /** `_required_setting`: the value, or a configuration error when it is
      absent or falsy. */
  function RequiredSetting(conf: Conf, name: string): (r: Result<PyValue, ConfigError>)
    ensures r.Ok? <==> name in conf && Truthy(conf[name])
    ensures r.Ok? ==> r.value == conf[name]
    ensures r.Err? ==> r.error == ImproperlyConfigured(MissingMessage(name))
  {
    var value := Setting(conf, name, PyNone);
    if !Truthy(value) then Err(ImproperlyConfigured(MissingMessage(name))) else Ok(value)
  }

  function RequiredString(conf: Conf, name: string): Result<string, ConfigError> {
    var r := RequiredSetting(conf, name);
    if r.Err? then Err(r.error) else Ok(Str(r.value))
  }

  /** `SALESMAN_STRIPE_SECRET_KEY`: required; the text of a truthy value,
      otherwise the error naming the setting. */
  function SecretKey(conf: Conf): (r: Result<string, ConfigError>)
    ensures r.Ok? <==> SecretKeyName in conf && Truthy(conf[SecretKeyName])
    ensures r.Ok? ==> r.value == Str(conf[SecretKeyName])
    ensures r.Err? ==> r.error == ImproperlyConfigured(MissingMessage(SecretKeyName))
  {
    RequiredString(conf, SecretKeyName)
  }

  /** `SALESMAN_STRIPE_WEBHOOK_SECRET`: required, as the secret key. */
  function WebhookSecret(conf: Conf): (r: Result<string, ConfigError>)
    ensures r.Ok? <==> WebhookSecretName in conf && Truthy(conf[WebhookSecretName])
    ensures r.Ok? ==> r.value == Str(conf[WebhookSecretName])
    ensures r.Err? ==> r.error == ImproperlyConfigured(MissingMessage(WebhookSecretName))
  {
    RequiredString(conf, WebhookSecretName)
  }

  /** `SALESMAN_STRIPE_PAYMENT_LABEL`, "Pay with Stripe" when unset. */
  function PaymentLabel(conf: Conf): (r: string)
    ensures PaymentLabelName !in conf ==> r == "Pay with Stripe"
    ensures PaymentLabelName in conf ==> r == Str(conf[PaymentLabelName])
  {
    Str(Setting(conf, PaymentLabelName, PyStr("Pay with Stripe")))
  }

  /** `SALESMAN_STRIPE_DEFAULT_CURRENCY`, "USD" when unset. */
  function DefaultCurrency(conf: Conf): (r: string)
    ensures DefaultCurrencyName !in conf ==> r == "USD"
    ensures DefaultCurrencyName in conf ==> r == Str(conf[DefaultCurrencyName])
  {
    Str(Setting(conf, DefaultCurrencyName, PyStr("USD")))
  }

  /** `SALESMAN_STRIPE_CANCEL_URL`, empty when unset. */
  function CancelUrl(conf: Conf): (r: string)
    ensures CancelUrlName !in conf ==> r == ""
    ensures CancelUrlName in conf ==> r == Str(conf[CancelUrlName])
  {
    Str(Setting(conf, CancelUrlName, PyStr("")))
  }

  /** `SALESMAN_STRIPE_SUCCESS_URL`, empty when unset. */
  function SuccessUrl(conf: Conf): (r: string)
    ensures SuccessUrlName !in conf ==> r == ""
    ensures SuccessUrlName in conf ==> r == Str(conf[SuccessUrlName])
  {
    Str(Setting(conf, SuccessUrlName, PyStr("")))
  }

  /** `SALESMAN_STRIPE_PAID_STATUS`, "PROCESSING" when unset. */
  function PaidStatus(conf: Conf): (r: string)
    ensures PaidStatusName !in conf ==> r == "PROCESSING"
    ensures PaidStatusName in conf ==> r == Str(conf[PaidStatusName])
  {
    Str(Setting(conf, PaidStatusName, PyStr("PROCESSING")))
  }

  /** An empty string and None are missing as far as the secrets go. */
  lemma FalsySecretsAreMissing(conf: Conf)
    requires SecretKeyName in conf && conf[SecretKeyName] in {PyNone, PyStr("")}
    ensures SecretKey(conf).Err?
  {
  }

  /** A configured string is used as it is, for every optional setting. */
  lemma ConfiguredStringsWin(conf: Conf, name: string, s: string)
    requires name in conf && conf[name] == PyStr(s)
    ensures name == PaymentLabelName ==> PaymentLabel(conf) == s
    ensures name == DefaultCurrencyName ==> DefaultCurrency(conf) == s
    ensures name == CancelUrlName ==> CancelUrl(conf) == s
    ensures name == SuccessUrlName ==> SuccessUrl(conf) == s
    ensures name == PaidStatusName ==> PaidStatus(conf) == s
  {
  }
}
