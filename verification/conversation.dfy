/** Conversation memory kept for the reply generator. */
module Conversation {
  import opened Wrappers

  datatype Role = User | Assistant
  datatype Turn = Turn(role: Role, content: string)

  /** What the language-model call produced: some (already trimmed) text,
      possibly empty, or a failure of the call itself. */
  datatype LlmOutcome = Completion(text: string) | ApiError

  /** History entries kept once the user turn is appended. */
  const HistoryWindow: nat := 12

  const CalendlyUrl: string := "https://calendly.com/erick-damian-ceo-de-neuromind-ia/junta-ceo-de-neuromind"

  /** Reply when no language-model client is configured. */
  const NoClientReply: string :=
    "¡Hola! Soy Erick Damián, CEO de NeuroMIND 🙌\nCuéntame rápido sobre tu **página web profesional**: ¿de qué trata tu negocio y si ya tienes dominio/hosting? Incluimos Inicio, Menú, Nosotros, Servicios, Información de la empresa y Contacto con botón de WhatsApp. Si prefieres agendar directo: " + CalendlyUrl

  /** Reply substituted when the model returns empty content. */
  const EmptyCompletionReply: string :=
    "Perfecto. ¿Te acomoda más mañana o tarde para una mini llamada? Si prefieres, agenda aquí: " + CalendlyUrl

  /** Reply when the model call fails. */
  const ErrorReply: string :=
    "Listo. Te ayudo personalmente con tu **página web profesional** (Inicio, Menú, Nosotros, Servicios, Información de la empresa y Contacto con WhatsApp). ¿Te acomoda mañana o en la tarde? 👉 Agenda aquí: " + CalendlyUrl

  /** The most recent `HistoryWindow` entries of a history, in order. */
  function Window(h: seq<Turn>): (r: seq<Turn>)
    ensures |r| == Min(|h|, HistoryWindow)
  {
    if |h| > HistoryWindow then h[|h| - HistoryWindow..] else h
  }

  /** The window is a suffix of the history: nothing is reordered or rewritten. */
  lemma WindowIsSuffix(h: seq<Turn>)
    ensures Window(h) == h[|h| - |Window(h)|..]
  {
  }

  /** How replies are produced: whether a language-model client is
      configured, and the canned texts used in its place. */
  datatype ReplyConfig = ReplyConfig(clientPresent: bool, noClient: string, emptyCompletion: string, apiError: string)

  /** The configuration the bot starts with. */
  function DefaultConfig(clientPresent: bool): ReplyConfig
  {
    ReplyConfig(clientPresent, NoClientReply, EmptyCompletionReply, ErrorReply)
  }

  predicate CannedNonEmpty(cfg: ReplyConfig)
  {
    cfg.noClient != "" && cfg.emptyCompletion != "" && cfg.apiError != ""
  }

  /** None of the bot's canned replies is empty. */
  lemma DefaultConfigNonEmpty(clientPresent: bool)
    ensures CannedNonEmpty(DefaultConfig(clientPresent))
  {
    assert |CalendlyUrl| > 0;
  }

  /** True when the exchange records an assistant turn: only when a client is
      configured and the call did not fail. */
  predicate RecordsAssistant(cfg: ReplyConfig, outcome: LlmOutcome)
  {
    cfg.clientPresent && outcome.Completion?
  }

  /** The text sent back to the correspondent: the model's text when it gave
      one, a canned text otherwise, and never an empty one. */
  function ReplyFor(cfg: ReplyConfig, outcome: LlmOutcome): (r: string)
    ensures CannedNonEmpty(cfg) ==> r != ""
    ensures RecordsAssistant(cfg, outcome) && outcome.text != "" ==> r == outcome.text
    ensures RecordsAssistant(cfg, outcome) && outcome.text == "" ==> r == cfg.emptyCompletion
    ensures !cfg.clientPresent ==> r == cfg.noClient
    ensures cfg.clientPresent && outcome.ApiError? ==> r == cfg.apiError
  {
    if !cfg.clientPresent then cfg.noClient
    else match outcome
      case ApiError => cfg.apiError
      case Completion(text) => if text != "" then text else cfg.emptyCompletion
  }

  /** The turns one exchange adds at the end of the history. */
  function Added(userText: string, cfg: ReplyConfig, outcome: LlmOutcome): seq<Turn>
  {
    if RecordsAssistant(cfg, outcome)
    then [Turn(User, userText), Turn(Assistant, ReplyFor(cfg, outcome))]
    else [Turn(User, userText)]
  }

  /** The history after one exchange: the user turn is appended, the window
      cut to the most recent `HistoryWindow` entries, then the assistant turn
      appended on the client path. */
  function HistoryAfter(h: seq<Turn>, userText: string, cfg: ReplyConfig, outcome: LlmOutcome): (r: seq<Turn>)
    ensures |r| == Min(|h|, HistoryWindow - 1) + |Added(userText, cfg, outcome)|
    ensures |r| <= HistoryWindow + 1
  {
    var w := Window(h + [Turn(User, userText)]);
    if RecordsAssistant(cfg, outcome)
    then w + [Turn(Assistant, ReplyFor(cfg, outcome))]
    else w
  }

  lemma SuffixOfSnoc(a: seq<Turn>, x: Turn, i: nat)
    requires i <= |a|
    ensures (a + [x])[i..] == a[i..] + [x]
  {
  }

  /** One exchange leaves the most recent earlier turns that still fit the
      window, followed by the turns it adds. */
  lemma HistoryAfterKeepsRecent(h: seq<Turn>, userText: string, cfg: ReplyConfig, outcome: LlmOutcome)
    ensures HistoryAfter(h, userText, cfg, outcome)
            == h[|h| - Min(|h|, HistoryWindow - 1)..] + Added(userText, cfg, outcome)
  {
    var user := Turn(User, userText);
    var hu := h + [user];
    var w := Window(hu);
    var m := Min(|h|, HistoryWindow - 1);
    WindowIsSuffix(hu);
    SuffixOfSnoc(h, user, |h| - m);
    assert w == h[|h| - m..] + [user];
    if RecordsAssistant(cfg, outcome) {
      var asst := Turn(Assistant, ReplyFor(cfg, outcome));
      assert w + [asst] == h[|h| - m..] + [user, asst];
    }
  }
}
