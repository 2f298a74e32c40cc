/** The public promotion list: the type filter and the type labels. */
module PublicPromotions {
  import opened Wrappers
  import opened PromotionForms

  /** An entry of the type filter. */
  datatype TypeOption = TypeOption(value: string, text: string)

  /** The filter entries: "all" first, then the four types. */
  const PromotionTypes: seq<TypeOption> := [
    TypeOption("", "Todas"),
    TypeOption("COMBO", "Combo especial"),
    TypeOption("DOSXUNO", "2x1"),
    TypeOption("DESCUENTO_FIJO", "Descuento fijo"),
    TypeOption("DESCUENTO_PORCENTAJE", "Descuento %")]

  const TypeLabels: map<string, string> := map[
    "COMBO" := "Combo especial",
    "DOSXUNO" := "2x1",
    "DESCUENTO_FIJO" := "Descuento fijo",
    "DESCUENTO_PORCENTAJE" := "Descuento %"]

  /** `getTipoPromocionLabel`: the label of a known type, 'Promoción' for any other, the empty code included. */
  function TypeLabel(tipo: string): (r: string)
    ensures tipo in TypeLabels ==> r == TypeLabels[tipo]
    ensures tipo !in TypeLabels ==> r == "Promoción"
    ensures r != ""
  {
    if tipo in TypeLabels then TypeLabels[tipo] else "Promoción"
  }

  /** The filter starts with "all", its other entries are exactly the labelled types,
      and each shows the label the cards use. */
  lemma FilterMatchesLabels()
    ensures PromotionTypes[0].value == ""
    ensures forall i :: 1 <= i < |PromotionTypes| ==> PromotionTypes[i].value in TypeLabels
    ensures forall i :: 1 <= i < |PromotionTypes| ==> TypeLabel(PromotionTypes[i].value) == PromotionTypes[i].text
    ensures forall t :: t in TypeLabels ==> exists i :: 1 <= i < |PromotionTypes| && PromotionTypes[i].value == t
  {
    assert forall t :: t in TypeLabels ==> t == "COMBO" || t == "DOSXUNO" || t == "DESCUENTO_FIJO" || t == "DESCUENTO_PORCENTAJE";
    assert PromotionTypes[1].value == "COMBO" && PromotionTypes[2].value == "DOSXUNO";
    assert PromotionTypes[3].value == "DESCUENTO_FIJO" && PromotionTypes[4].value == "DESCUENTO_PORCENTAJE";
  }

  /** The page state: the shown promotions and the chosen type. */
  datatype PublicState = PublicState(promociones: seq<Promotion>, selectedPromotionType: string)

  /** The answer to a list request. */
  datatype PublicReply = PublicLoaded(data: seq<Promotion>) | PublicNotLoaded | PublicFailed

  /** `onPromotionTypeSelect`: records the type and asks for the list filtered by it. */
  function SelectType(s: PublicState, value: string): (r: (PublicState, string))
    ensures r.0.selectedPromotionType == value && r.0.promociones == s.promociones
    ensures r.1 == value
  {
    (s.(selectedPromotionType := value), value)
  }

  /** `loadPromotions` once the answer arrives: a successful answer replaces the list,
      anything else leaves it. */
  function OnPublicLoad(s: PublicState, reply: PublicReply): (r: PublicState)
    ensures reply.PublicLoaded? ==> r.promociones == reply.data
    ensures !reply.PublicLoaded? ==> r.promociones == s.promociones
    ensures r.selectedPromotionType == s.selectedPromotionType
  {
    match reply
    case PublicLoaded(data) => s.(promociones := data)
    case _ => s
  }
}
