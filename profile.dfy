/**
 * The account profile object. Every property is a plain getter/setter pair
 * over a private field, which here is simply a field of the class; the two
 * setters with logic are methods. They couple `currency_code` and
 * `minimum_amount`: under the Brazilian real the minimum deal amount is 5.
 */
module Profiles {
  import opened Values

  const BrlMinimum: Json := JNum(5.0)

  /**
   * The amount the `minimum_amount` setter stores under currency `code`; None
   * when `code.upper()` raises because the code is not a string (None at first).
   */
  function MinimumUnder(code: Json, amount: Json): (r: Option<Json>)
    ensures r.None? <==> !code.JStr?
    ensures IsBrl(code) == Some(true) ==> r == Some(BrlMinimum)
    ensures IsBrl(code) == Some(false) ==> r == Some(amount)
  {
    match IsBrl(code)
    case None => None
    case Some(brl) => Some(if brl then BrlMinimum else amount)
  }

  class Profile {
    const name: string
    var nickName: Json
    var profileId: Json
    var avatar: Json
    var country: Json
    var countryName: Json
    var countryIp: Json
    var lang: Json
    var timeOffset: Json
    var liveBalance: Json
    var demoBalance: Json
    var msg: Json
    var currencyCode: Json
    var currencySymbol: Json
    var profileLevel: Json
    var minimumAmount: Json

    /** A fresh profile: every field None. */
    constructor ()
      ensures name == "profile"
      ensures nickName == profileId == avatar == country == countryName == countryIp == JNull
      ensures lang == timeOffset == liveBalance == demoBalance == msg == JNull
      ensures currencyCode == currencySymbol == profileLevel == minimumAmount == JNull
    {
      name := "profile";
      nickName, profileId, avatar, country, countryName, countryIp := JNull, JNull, JNull, JNull, JNull, JNull;
      lang, timeOffset, liveBalance, demoBalance, msg := JNull, JNull, JNull, JNull, JNull;
      currencyCode, currencySymbol, profileLevel, minimumAmount := JNull, JNull, JNull, JNull;
    }

    /**
     * The `minimum_amount` setter: under a BRL currency it stores 5 whatever
     * the argument; under any other currency it stores the argument. With no
     * currency code yet, `.upper()` raises and nothing is stored (ok is false).
     */
    method SetMinimumAmount(amount: Json) returns (ok: bool)
      modifies this`minimumAmount
      ensures ok <==> currencyCode.JStr?
      ensures !ok ==> minimumAmount == old(minimumAmount)
      ensures IsBrl(currencyCode) == Some(true) ==> minimumAmount == BrlMinimum
      ensures IsBrl(currencyCode) == Some(false) ==> minimumAmount == amount
    {
      var stored := MinimumUnder(currencyCode, amount);
      if stored.None? {
        return false;
      }
      minimumAmount := stored.value;
      ok := true;
    }

    /**
     * The `currency_code` setter: stores the code, then forces the minimum to
     * 5 when the code is BRL in any letter case; any other code leaves the
     * minimum as it was. A code that is not a string is stored and then
     * `.upper()` raises (ok is false).
     */
    method SetCurrencyCode(code: Json) returns (ok: bool)
      modifies this`currencyCode, this`minimumAmount
      ensures currencyCode == code
      ensures ok <==> code.JStr?
      ensures minimumAmount == if IsBrl(code) == Some(true) then BrlMinimum else old(minimumAmount)
    {
      currencyCode := code;
      var brl := IsBrl(code);
      if brl.None? {
        return false;
      }
      if brl.value {
        minimumAmount := BrlMinimum;
      }
      ok := true;
    }
  }

  /** The currency code and the minimum amount a profile holds. */
  datatype Pair = Pair(code: Json, minimum: Json)

  /**
   * Copying `currencyCode` and then `minDealAmount` into a profile that held
   * `before`: the order that makes the minimum follow the new currency.
   */
  function CopyCurrencyThenMinimum(before: Pair, code: Json, amount: Json): (r: Outcome<Pair>)
  {
    if !code.JStr? then Raised
    else
      match MinimumUnder(code, amount)
      case None => Raised
      case Some(m) => Returned(Pair(code, m))
  }

  /**
   * The order `get_profile` uses: `minDealAmount` first, judged against the
   * currency the profile held before, then `currencyCode`.
   */
  function CopyMinimumThenCurrency(before: Pair, code: Json, amount: Json): (r: Outcome<Pair>)
  {
    match MinimumUnder(before.code, amount)
    case None => Raised
    case Some(m) =>
      if !code.JStr? then Raised
      else Returned(Pair(code, if IsBrl(code) == Some(true) then BrlMinimum else m))
  }

  /**
   * With the currency copied first, the stored minimum is 5 exactly under a BRL
   * code and the server's value otherwise, whatever the profile held before.
   */
  lemma CurrencyFirstFollowsCurrency(before: Pair, code: string, amount: Json)
    ensures CopyCurrencyThenMinimum(before, JStr(code), amount) ==
              Returned(Pair(JStr(code), if Upper(code) == "BRL" then BrlMinimum else amount))
  {
  }

  /** As written, the first copy into a fresh profile raises. */
  lemma MinimumFirstRaisesOnFreshProfile(code: Json, amount: Json)
    ensures CopyMinimumThenCurrency(Pair(JNull, JNull), code, amount) == Raised
    ensures CopyCurrencyThenMinimum(Pair(JNull, JNull), JStr("USD"), amount) == Returned(Pair(JStr("USD"), amount))
  {
    assert Upper("USD") == "USD";
  }

  /** As written, switching away from BRL keeps the stale minimum of 5. */
  lemma MinimumFirstKeepsStaleBrlMinimum()
    ensures CopyMinimumThenCurrency(Pair(JStr("BRL"), BrlMinimum), JStr("USD"), JNum(1.0)) == Returned(Pair(JStr("USD"), BrlMinimum))
    ensures CopyCurrencyThenMinimum(Pair(JStr("BRL"), BrlMinimum), JStr("USD"), JNum(1.0)) == Returned(Pair(JStr("USD"), JNum(1.0)))
  {
    assert Upper("BRL") == "BRL";
    assert Upper("USD") == "USD";
  }
}
