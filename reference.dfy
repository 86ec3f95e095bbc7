/** The session reference codec (`get_reference` / `parse_reference`): a
    basket or order is named `basket_<id>` or `order_<id>` in the checkout
    session and recognised again when Stripe hands the reference back. */
module Reference {
  import opened Common
  import Text
  import opened Entities

  const Separator: char := '_'

  datatype Kind = KindBasket | KindOrder

  function KindName(k: Kind): string {
    match k
    case KindBasket => "basket"
    case KindOrder => "order"
  }

  function KindOf(obj: Payable): Kind {
    if obj.PayBasket? then KindBasket else KindOrder
  }

  /** A decoded reference: the kind and the id text as it stood after the separator. */
  datatype Ref = Ref(kind: Kind, id: string)

  /** `get_reference`: a basket gives `basket_<id>`, anything else `order_<id>`. */
  function GetReference(obj: Payable): (r: string)
    ensures obj.PayBasket? ==> |r| > 7 && r[..7] == "basket_"
    ensures obj.PayOrder? ==> |r| > 6 && r[..6] == "order_"
  {
    KindName(KindOf(obj)) + [Separator] + Text.NatToString(obj.Id())
  }

  /** `parse_reference`. A missing reference (`None.split` raises), a split
      that is not exactly two pieces (the unpacking raises) or an unknown kind
      (the assert raises) all end in the `except` and give None. */
  function ParseReference(reference: Option<string>): (r: Option<Ref>)
    ensures reference.None? ==> r.None?
    ensures r.Some? ==> Separator !in r.value.id
  {
    match reference
    case None => None
    case Some(s) =>
      var parts := Text.Split(s, Separator);
      if |parts| != 2 then None
      else if parts[0] == "basket" then Some(Ref(KindBasket, parts[1]))
      else if parts[0] == "order" then Some(Ref(KindOrder, parts[1]))
      else None
  }

  /** A string decodes to a kind and an id exactly when it is that kind's
      name, the separator and a separator-free id. */
  lemma ParseReferenceIff(s: string, kind: Kind, id: string)
    ensures ParseReference(Some(s)) == Some(Ref(kind, id))
            <==> s == KindName(kind) + [Separator] + id && Separator !in id
  {
    var parts := Text.Split(s, Separator);
    if ParseReference(Some(s)) == Some(Ref(kind, id)) {
      Text.JoinSplit(s, Separator);
      assert parts == [KindName(kind), id];
      assert parts[1..] == [id];
      assert Text.Join(parts, Separator) == KindName(kind) + [Separator] + id;
      assert Separator !in parts[1];
    }
    if s == KindName(kind) + [Separator] + id && Separator !in id {
      var pieces := [KindName(kind), id];
      assert pieces[1..] == [id];
      assert Text.Join(pieces, Separator) == s;
      Text.SplitJoin(pieces, Separator);
    }
  }

  /** Encoding then decoding gives the object's kind and its id as text. */
  lemma ParseGetReference(obj: Payable)
    ensures ParseReference(Some(GetReference(obj))) == Some(Ref(KindOf(obj), Text.NatToString(obj.Id())))
  {
    var id := Text.NatToString(obj.Id());
    ParseReferenceIff(GetReference(obj), KindOf(obj), id);
  }

  /** The decoded id text denotes the object's own id again. */
  lemma GetReferenceIdRoundTrip(obj: Payable)
    ensures var r := ParseReference(Some(GetReference(obj)));
            r.Some? && Text.ParseDecimal(r.value.id) == Some(obj.Id())
  {
    ParseGetReference(obj);
    Text.ParseDecimalOfNatToString(obj.Id());
  }

  /** Malformed references decode to nothing, without raising: a missing
      reference, and one without a separator. */
  lemma ParseReferenceRejectsGarbage()
    ensures ParseReference(None) == None
    ensures ParseReference(Some("garbage")) == None
  {
    Text.SplitJoin(["garbage"], Separator);
  }

  lemma ParseReferenceRejectsThreeParts()
    ensures ParseReference(Some("basket_1_2")) == None
  {
    assert Text.Join(["basket", "1", "2"], Separator) == "basket_1_2" by {
      assert ["basket", "1", "2"][1..] == ["1", "2"] && ["1", "2"][1..] == ["2"];
    }
    Text.SplitJoin(["basket", "1", "2"], Separator);
  }

  lemma ParseReferenceRejectsUnknownKind()
    ensures ParseReference(Some("widget_5")) == None
  {
    assert Text.Join(["widget", "5"], Separator) == "widget_5" by {
      assert ["widget", "5"][1..] == ["5"];
    }
    Text.SplitJoin(["widget", "5"], Separator);
  }

  /** An empty id after the separator is accepted. */
  lemma ParseReferenceAcceptsEmptyId()
    ensures ParseReference(Some("basket_")) == Some(Ref(KindBasket, ""))
  {
    assert "basket_" == KindName(KindBasket) + [Separator] + "";
    ParseReferenceIff("basket_", KindBasket, "");
  }

  /** A well-formed order reference decodes to its kind and id text. */
  lemma ParseReferenceAcceptsOrder()
    ensures ParseReference(Some("order_17")) == Some(Ref(KindOrder, "17"))
  {
    assert "order_17" == KindName(KindOrder) + [Separator] + "17";
    ParseReferenceIff("order_17", KindOrder, "17");
  }
}
