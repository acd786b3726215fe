/** The faith-aware texts of `content.ts` (`APP_TEXT.home`). A missing faith reads like any
    non-catholic one. `hour` is `getHours()` of the caller's clock. */
module Content {
  import opened Types

  predicate IsCatholic(faith: Option<Faith>)
  {
    faith == Some(Catholic)
  }

  datatype Band = Morning | Afternoon | Evening

  /** The hour bands of `getGreeting`: before 12, before 18, and the rest. */
  function BandOf(hour: int): (b: Band)
    ensures b == Morning <==> hour < 12
    ensures b == Afternoon <==> 12 <= hour < 18
    ensures b == Evening <==> hour >= 18
  {
    if hour < 12 then Morning else if hour < 18 then Afternoon else Evening
  }

  /** `APP_TEXT.home.getGreeting(faith, hour)`. */
  function GetGreeting(faith: Option<Faith>, hour: int): (r: string)
    ensures |r| >= 9
    ensures BandOf(hour) == Morning ==> r[..7] == "Bom dia"
    ensures BandOf(hour) == Afternoon ==> r[..9] == "Boa tarde"
    ensures BandOf(hour) == Evening ==> r[..9] == "Boa noite"
  {
    var catholic := IsCatholic(faith);
    if hour < 12 then (if catholic then "Bom dia, a paz de Cristo" else "Bom dia, a paz do Senhor")
    else if hour < 18 then (if catholic then "Boa tarde, irmão(ã)" else "Boa tarde, varão(oa)")
    else (if catholic then "Boa noite, fique com Deus" else "Boa noite, graça e paz")
  }

  /** Within one band, two faiths get the same greeting exactly when both or neither are catholic;
      across bands the greetings always differ. */
  lemma {:induction false} GreetingDependsOnBandAndCatholic(f1: Option<Faith>, f2: Option<Faith>, h1: int, h2: int)
    ensures GetGreeting(f1, h1) == GetGreeting(f2, h2) <==>
              BandOf(h1) == BandOf(h2) && IsCatholic(f1) == IsCatholic(f2)
  {
    var g1 := GetGreeting(f1, h1);
    var g2 := GetGreeting(f2, h2);
    if g1 == g2 {
      assert g1[..9] == g2[..9];
      assert g1[..7] == g2[..7];
      assert BandOf(h1) == BandOf(h2);
    }
  }

  const PlaylistDescCatholic: string := "Organize os cânticos para a liturgia ou grupo de oração."
  const PlaylistDescEvangelical: string := "Crie sua playlist personalizada para o louvor ou célula."

  datatype Tip = Tip(tag: string, title: string, desc: string, mobileDesc: Option<string>)
  datatype Tips = Tips(playlist: Tip, share: Tip, offline: Tip)

  function PlaylistTip(catholic: bool): (t: Tip)
    ensures t.tag == "Dica" && t.mobileDesc == Some("Crie sua lista agora.")
  {
    Tip("Dica",
        if catholic then "Playlist pra Missa" else "Playlist pro Culto",
        if catholic then PlaylistDescCatholic else PlaylistDescEvangelical,
        Some("Crie sua lista agora."))
  }

  function ShareTip(catholic: bool): (t: Tip)
    ensures t.tag == "Dica" && t.title == "Envie no Zap" && t.mobileDesc == Some("Compartilhe no grupo.")
  {
    Tip("Dica", "Envie no Zap",
        if catholic then "Compartilhe a música no grupo da Paróquia."
        else "Compartilhe a música no grupo da Igreja.",
        Some("Compartilhe no grupo."))
  }

  function OfflineTip(catholic: bool): (t: Tip)
    ensures t.tag == "Dica" && t.mobileDesc.None?
  {
    Tip("Dica",
        if catholic then "Vai pro Retiro?" else "Vai pro Monte?",
        "Baixe suas músicas favoritas para ouvir onde não tem sinal.",
        None)
  }

  /** `APP_TEXT.home.getTips(faith)`. */
  function GetTips(faith: Option<Faith>): (r: Tips)
    ensures r.playlist.tag == "Dica" && r.share.tag == "Dica" && r.offline.tag == "Dica"
    ensures r.playlist.mobileDesc.Some? && r.share.mobileDesc.Some? && r.offline.mobileDesc.None?
  {
    var catholic := IsCatholic(faith);
    Tips(PlaylistTip(catholic), ShareTip(catholic), OfflineTip(catholic))
  }

  /** The tag, the share title, the short mobile texts and the offline description are the same
      for every faith; only the catholic flag selects the rest. */
  lemma TipsSharedFields(f1: Option<Faith>, f2: Option<Faith>)
    ensures var t1, t2 := GetTips(f1), GetTips(f2);
      t1.playlist.tag == t2.playlist.tag && t1.share.tag == t2.share.tag && t1.offline.tag == t2.offline.tag &&
      t1.share.title == t2.share.title &&
      t1.playlist.mobileDesc == t2.playlist.mobileDesc && t1.share.mobileDesc == t2.share.mobileDesc &&
      t1.offline.desc == t2.offline.desc
    ensures IsCatholic(f1) == IsCatholic(f2) ==> GetTips(f1) == GetTips(f2)
  {
  }

  /** The catholic and the other variants differ in the playlist title and description, the share
      description and the offline title. */
  lemma CatholicVariantsDiffer()
    ensures PlaylistTip(true).title != PlaylistTip(false).title
    ensures PlaylistTip(true).desc != PlaylistTip(false).desc
    ensures ShareTip(true).desc != ShareTip(false).desc
    ensures OfflineTip(true).title != OfflineTip(false).title
  {
    assert PlaylistTip(true).title[11] != PlaylistTip(false).title[11];
    assert PlaylistDescCatholic != PlaylistDescEvangelical;
    assert ShareTip(true).desc[33] != ShareTip(false).desc[33];
    assert OfflineTip(true).title[8] != OfflineTip(false).title[8];
  }

  /** The playlist title and description, the share description and the offline title each change
      with the catholic flag. */
  lemma {:induction false} TipsDifferIffCatholic(f1: Option<Faith>, f2: Option<Faith>)
    ensures var t1, t2 := GetTips(f1), GetTips(f2);
      (t1.playlist.title == t2.playlist.title <==> IsCatholic(f1) == IsCatholic(f2)) &&
      (t1.playlist.desc == t2.playlist.desc <==> IsCatholic(f1) == IsCatholic(f2)) &&
      (t1.share.desc == t2.share.desc <==> IsCatholic(f1) == IsCatholic(f2)) &&
      (t1.offline.title == t2.offline.title <==> IsCatholic(f1) == IsCatholic(f2))
  {
    CatholicVariantsDiffer();
  }
}
