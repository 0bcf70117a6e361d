/** The three-tier status light of the scorecard (app.py, `_semaforo`). */
module TrafficLight {

  /** The tiers, from best to worst. */
  datatype Tier = OnTarget | Attention | Below {

    /** The CSS class the page styles the figure with. */
    function CssClass(): string {
      match this
      case OnTarget => "kpi-green"
      case Attention => "kpi-orange"
      case Below => "kpi-red"
    }

    /** The coloured circle shown beside the figure. */
    function Emoji(): string {
      match this
      case OnTarget => "\U{1F7E2}"
      case Attention => "\U{1F7E0}"
      case Below => "\U{1F534}"
    }

    /** The status label. */
    function Status(): string {
      match this
      case OnTarget => "No alvo"
      case Attention => "Aten\U{E7}\U{E3}o"
      case Below => "Abaixo"
    }

    /** Higher is better. */
    function Rank(): nat {
      match this
      case OnTarget => 2
      case Attention => 1
      case Below => 0
    }
  }

  /** The default `limiar_pct`, 0.833 of the target average. */
  const AttentionThreshold: real := 0.833

  /** The tier of an actual average `media` against a target average `metaMedia`. */
  function Semaforo(media: real, metaMedia: real, limiarPct: real := AttentionThreshold): (t: Tier)
    ensures t == OnTarget <==> metaMedia <= media
    ensures t == Attention <==> metaMedia * limiarPct <= media < metaMedia
    ensures t == Below <==> media < metaMedia && media < metaMedia * limiarPct
  {
    if media >= metaMedia then OnTarget
    else if media >= metaMedia * limiarPct then Attention
    else Below
  }

  /** With a positive target the tier depends only on the ratio of actual to
      target: on target from ratio 1, attention from ratio 0.833. */
  lemma SemaforoByRatio(media: real, metaMedia: real)
    requires metaMedia > 0.0
    ensures Semaforo(media, metaMedia) == OnTarget <==> media / metaMedia >= 1.0
    ensures Semaforo(media, metaMedia) == Attention <==> AttentionThreshold <= media / metaMedia < 1.0
    ensures Semaforo(media, metaMedia) == Below <==> media / metaMedia < AttentionThreshold
  {
    var q := media / metaMedia;
    assert media == q * metaMedia;
    assert q >= 1.0 <==> q * metaMedia >= metaMedia;
    assert q >= AttentionThreshold <==> q * metaMedia >= AttentionThreshold * metaMedia;
  }

  /** A higher average never gets a worse tier, whatever the target and the
      threshold. */
  lemma SemaforoMonotone(media1: real, media2: real, metaMedia: real, limiarPct: real)
    requires media1 <= media2
    ensures Semaforo(media1, metaMedia, limiarPct).Rank() <= Semaforo(media2, metaMedia, limiarPct).Rank()
  {
  }

  /** For a fixed positive target, a higher ratio of actual to target never
      gets a worse tier. */
  lemma SemaforoMonotoneInRatio(media1: real, media2: real, metaMedia: real)
    requires metaMedia > 0.0
    requires media1 / metaMedia <= media2 / metaMedia
    ensures Semaforo(media1, metaMedia).Rank() <= Semaforo(media2, metaMedia).Rank()
  {
    assert media1 == (media1 / metaMedia) * metaMedia;
    assert media2 == (media2 / metaMedia) * metaMedia;
    assert media1 <= media2;
    SemaforoMonotone(media1, media2, metaMedia, AttentionThreshold);
  }
}
