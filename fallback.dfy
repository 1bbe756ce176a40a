/**
 * The fallback responder of the chat widget: a fixed, ordered table of
 * keyword rules. The message is lower-cased, the rules are tested in order,
 * the first rule with a keyword occurring in the message wins, and one of its
 * canned replies is drawn at random; when no rule fires, one of the default
 * replies is drawn.
 */
module Fallback {
  import opened Text

  /** The rule groups, in the order they are tested, and the default group. */
  datatype Topic =
    | Services | Pricing | Contact | Timeline | Greeting | Identity
    | Websites | ECommerce | WebApp | Chatbot | Default

  /** Position of a group in the order of the tests; the default comes last. */
  function Priority(t: Topic): nat {
    match t
    case Services => 0
    case Pricing => 1
    case Contact => 2
    case Timeline => 3
    case Greeting => 4
    case Identity => 5
    case Websites => 6
    case ECommerce => 7
    case WebApp => 8
    case Chatbot => 9
    case Default => 10
  }

  /** The substrings that make a group fire (the default group has none). */
  function Keywords(t: Topic): seq<string> {
    match t
    case Services => ["servizi", "cosa fate", "che lavoro", "sviluppo"]
    case Pricing => ["prezzo", "costo", "quanto", "budget", "spesa", "euro", "soldi"]
    case Contact => ["contatt", "telefono", "email", "chiamare", "scrivere", "dove siete", "indirizzo"]
    case Timeline => ["tempo", "quanto ci vuole", "durata", "veloce", "presto", "quando"]
    case Greeting => ["ciao", "salve", "buongiorno", "buonasera", "hey"]
    case Identity => ["chi sei", "cosa sei", "nome", "presentati"]
    case Websites => ["siti web", "sito web", "sito internet"]
    case ECommerce => ["e-commerce", "ecommerce", "negozio online", "vendere online"]
    case WebApp => ["app web", "applicazione web", "web app"]
    case Chatbot => ["chatbot", "chat bot", "assistente virtuale"]
    case Default => []
  }

  /** How many canned replies group `t` has. */
  function ReplyCount(t: Topic): nat {
    if t == Default then 4 else 3
  }

  /** A canned reply: its group and its position in the group's list. */
  datatype Reply = Reply(topic: Topic, index: nat)

  /** The text of a canned reply. */
  function ReplyText(reply: Reply): string
    requires reply.index < ReplyCount(reply.topic)
  {
    var i := reply.index;
    match reply.topic
    case Services =>
      if i == 0 then
        "Ah, ottima domanda! 😊 Noi di DevNinja ci occupiamo principalmente di:\n\nCreiamo siti web moderni con React e Vue.js, sviluppiamo backend robusti, realizziamo e-commerce che convertono davvero e chatbot AI come me!\n\nSaremo felici di discutere del tuo progetto! 🚀"
      else if i == 1 then
        "Perfetto! DevNinja si specializza in:\n\n🌐 Sviluppo web frontend e backend\n🛒 E-commerce personalizzati\n🤖 Chatbot AI intelligenti\n📱 App web responsive"
      else
        "Ciao! Sono DevNinja-bot e posso parlarti dei nostri servizi:\n\nSviluppiamo soluzioni web complete, dai siti vetrina alle app complesse, passando per e-commerce e chatbot come me!\n\nContattaci per discutere del tuo progetto! 🚀"
    case Pricing =>
      if i == 0 then
        "Capisco, il budget è sempre importante! 💰\n\nI nostri progetti partono da €800 per un sito vetrina fino a €8.000 per app web complesse. Ma ogni progetto è unico!\n\nContattaci per un preventivo personalizzato sui costi. 😊"
      else if i == 1 then
        "Ottima domanda sui prezzi! 💰\n\nDipende molto dal tipo di progetto:\n• Sito base: €800-1.500\n• Sito business: €1.500-3.000\n• App web: €3.000-8.000\n• Chatbot: €500-2.000\n\nContattaci per parlare del tuo progetto specifico!"
      else
        "I prezzi variano in base alle esigenze! 💰\n\nPer un preventivo accurato, contattaci specificando:\n- Che tipo di sito/app ti serve\n- Quali funzionalità vuoi includere\n\nCosì potremo essere più precisi! 😊"
    case Contact =>
      if i == 0 then
        "Perfetto! Ecco come puoi raggiungerci:\n\n📧 info@devninja.it (rispondo sempre entro 24h)\n📱 +39 02 1234 5678\n🏢 Via Roma 123, Milano\n\nSiamo disponibili dal lunedì al venerdì, 9-18. Scegli il canale che preferisci! 😊"
      else if i == 1 then
        "Eccoci! Puoi contattarci così:\n\n📧 info@devninja.it\n📱 +39 02 1234 5678\n🏢 Via Roma 123, Milano\n\nIl team è disponibile dal lunedì al venerdì, dalle 9 alle 18. Ti ricontatteremo al più presto! 😊"
      else
        "Certo! I nostri contatti sono:\n\n📧 info@devninja.it (risposta garantita in 24h)\n📱 +39 02 1234 5678\n🏢 Via Roma 123, Milano\n\nScegli il metodo che preferisci per contattarci! 😊"
    case Timeline =>
      if i == 0 then
        "Ottima domanda! ⏰\n\nI tempi dipendono dalla complessità del progetto:\n\n• Sito semplice: 2-4 settimane\n• Progetto business: 4-8 settimane\n• App complessa: 8-16 settimane\n• Chatbot: 1-3 settimane\n\nContattaci per una stima più precisa del tuo progetto! 😊"
      else if i == 1 then
        "I tempi variano in base al progetto! ⏰\n\nGeneralmente:\n- Siti vetrina: 2-4 settimane\n- Siti business: 1-2 mesi\n- App web: 2-4 mesi\n- Chatbot: 1-3 settimane\n\nContattaci per discutere del tuo progetto specifico!"
      else
        "Dipende dal tipo di sviluppo! ⏰\n\nPer una stima precisa sui tempi, contattaci specificando:\n- Che tipo di sito/app ti serve\n- Se hai già i contenuti pronti\n- Quali funzionalità particolari servono\n\nCosì potremo darti una stima accurata! 😊"
    case Greeting =>
      if i == 0 then
        "Ciao! 👋 Sono DevNinja-bot! Sono qui per aiutarti con informazioni sui nostri servizi di sviluppo web! 😊"
      else if i == 1 then
        "Salve! 🤖 DevNinja-bot qui! Sono pronto ad aiutarti con tutte le informazioni su sviluppo web, prezzi e servizi. Usa i bottoni per scoprire di più! 😊"
      else
        "Hey! 👋 Benvenuto! Sono l'assistente virtuale di DevNinja. Posso aiutarti con domande su siti web, app, e-commerce e molto altro! 🚀"
    case Identity =>
      if i == 0 then
        "Sono DevNinja-bot! 🤖 L'assistente virtuale di DevNinja, un'azienda di sviluppo web di Milano. Sono qui per aiutarti con informazioni sui nostri servizi! 😊"
      else if i == 1 then
        "Mi chiamo DevNinja-bot! 🤖 Sono un chatbot AI che lavora per DevNinja. Il mio compito è aiutarti a scoprire come possiamo realizzare il tuo progetto web! 🚀"
      else
        "Ciao! Sono DevNinja-bot, il tuo assistente virtuale! 🤖 Lavoro per DevNinja e sono specializzato nel fornire informazioni su sviluppo web, prezzi e servizi. Usa i bottoni per esplorare! 😊"
    case Websites =>
      if i == 0 then
        "Perfetto! 🌐 Realizziamo siti web di ogni tipo:\n\n• Siti vetrina professionali\n• Siti aziendali completi\n• Landing page ottimizzate\n• Portfolio creativi\n• Blog e magazine\n\nTutti i nostri siti sono responsive, veloci e SEO-friendly. Contattaci per il tuo progetto! 😊"
      else if i == 1 then
        "Ottima scelta! 🌐 I nostri siti web includono:\n\n✅ Design moderno e responsive\n✅ Ottimizzazione SEO\n✅ Velocità di caricamento elevata\n✅ Sicurezza avanzata\n✅ Gestione contenuti facile\n\nContattaci per parlare del tuo progetto!"
      else
        "Specializzati in siti web! 🌐\n\nOffriamo:\n- Sviluppo custom o CMS\n- Design unico e professionale\n- Ottimizzazione per mobile\n- Integrazione social e analytics\n- Manutenzione e supporto\n\nContattaci per discutere del design! 🎨"
    case ECommerce =>
      if i == 0 then
        "Fantastico! 🛒 Creiamo e-commerce completi e professionali:\n\n• Catalogo prodotti illimitato\n• Gestione ordini e magazzino\n• Pagamenti sicuri (PayPal, Stripe, ecc.)\n• Spedizioni automatizzate\n• Dashboard amministrativa\n• App mobile opzionale\n\nContattaci per il tuo negozio online! 😊"
      else if i == 1 then
        "Perfetto per il business online! 🛒\n\nI nostri e-commerce includono:\n✅ Design responsive e moderno\n✅ Carrello e checkout ottimizzati\n✅ Gestione clienti e ordini\n✅ Integrazione con corrieri\n✅ Analytics e reportistica\n✅ SEO per prodotti\n\nContattaci per iniziare a vendere online!"
      else
        "E-commerce è la nostra specialità! 🛒\n\nCaratteristiche principali:\n- Piattaforma scalabile\n- Sicurezza PCI compliant\n- Multi-lingua e multi-valuta\n- Gestione sconti e promozioni\n- Integrazione social commerce\n\nContattaci per lanciare il tuo business online! 📦"
    case WebApp =>
      if i == 0 then
        "Eccellente! 📱 Sviluppiamo app web avanzate:\n\n• Progressive Web App (PWA)\n• Dashboard gestionali\n• Piattaforme SaaS\n• Sistemi di prenotazione\n• CRM personalizzati\n• Portali utente\n\nTutte funzionano su desktop, tablet e mobile. Contattaci per la tua app! 🚀"
      else if i == 1 then
        "App web su misura! 📱\n\nI nostri servizi includono:\n✅ Interfacce intuitive\n✅ Database sicuri\n✅ API personalizzate\n✅ Autenticazione utenti\n✅ Notifiche real-time\n✅ Backup automatici\n\nContattaci per realizzare la tua idea!"
      else
        "Specializzati in app web! 📱\n\nTecnologie moderne:\n- React, Vue, Angular\n- Node.js, Python, PHP\n- Database SQL/NoSQL\n- Cloud hosting scalabile\n- Sicurezza enterprise\n\nContattaci per sviluppare la tua soluzione! 💡"
    case Chatbot =>
      if i == 0 then
        "Ottima idea! 🤖 Creiamo chatbot intelligenti come me:\n\n• Assistenti clienti 24/7\n• Chatbot per e-commerce\n• Bot per prenotazioni\n• Assistenti informativi\n• Integrazione WhatsApp/Telegram\n• AI conversazionale avanzata\n\nContattaci per automatizzare il tuo customer service! 😊"
      else if i == 1 then
        "Chatbot personalizzati! 🤖\n\nCaratteristiche:\n✅ Risposte intelligenti\n✅ Integrazione CRM\n✅ Multi-piattaforma\n✅ Analytics conversazioni\n✅ Escalation umana\n✅ Training personalizzato\n\nContattaci per il tuo settore specifico!"
      else
        "Come me, ma su misura! 🤖\n\nOffriamo:\n- Chatbot rule-based o AI\n- Integrazione con sistemi esistenti\n- Design conversazionale\n- Testing e ottimizzazione\n- Manutenzione continua\n\nContattaci per progettare il tuo chatbot! 💬"
    case Default =>
      if i == 0 then
        "Ciao! Sono DevNinja-bot! 🤖\n\nSono l'assistente virtuale di DevNinja e sono qui per aiutarti con qualsiasi domanda sui nostri servizi di sviluppo web. Che si tratti di un nuovo sito, un e-commerce o un chatbot come me, sono qui per te!\n\nUsa i bottoni per scoprire di più! 😊"
      else if i == 1 then
        "Ciao! DevNinja-bot qui! 🤖\n\nPosso aiutarti con informazioni su:\n• Sviluppo web e app\n• Prezzi e preventivi\n• Tempi di realizzazione\n• Contatti del team\n\nUsa i bottoni per esplorare! 😊"
      else if i == 2 then
        "Salve! Sono DevNinja-bot, il tuo assistente virtuale! 🤖\n\nSono qui per rispondere alle tue domande su sviluppo web, e-commerce, chatbot e molto altro!\n\nUsa i bottoni per iniziare! 😊"
      else
        "Ciao! DevNinja-bot al tuo servizio! 🤖\n\nHo tutte le informazioni sui nostri servizi di sviluppo web. Usa i bottoni per scoprire tutto!\n\nServizi, prezzi, tempi, contatti... tutto a portata di click! 😊"
  }

  /** Some keyword of group `t` occurs in `m`. */
  predicate Hits(m: string, t: Topic) {
    exists i :: 0 <= i < |Keywords(t)| && Contains(m, Keywords(t)[i])
  }

  /** The group whose reply is given for the lower-cased message `m`: the
      first group, in the order of the tests, that `m` hits, or the default
      group when it hits none. */
  function Classify(m: string): (t: Topic)
    ensures t != Default ==> Hits(m, t)
    ensures forall u :: Hits(m, u) ==> Priority(t) <= Priority(u)
    ensures t == Default <==> forall u :: !Hits(m, u)
  {
    if Hits(m, Services) then Services
    else if Hits(m, Pricing) then Pricing
    else if Hits(m, Contact) then Contact
    else if Hits(m, Timeline) then Timeline
    else if Hits(m, Greeting) then Greeting
    else if Hits(m, Identity) then Identity
    else if Hits(m, Websites) then Websites
    else if Hits(m, ECommerce) then ECommerce
    else if Hits(m, WebApp) then WebApp
    else if Hits(m, Chatbot) then Chatbot
    else Default
  }

  /** A draw scaled by `n` stays below `n`. */
  lemma ScaledDrawBelow(roll: real, n: nat)
    requires 0.0 <= roll < 1.0 && n > 0
    ensures roll * n as real < n as real
  {
    var m := n as real;
    var gap := 1.0 - roll;
    assert gap > 0.0 && m > 0.0;
    assert gap * m > 0.0;
    assert m - roll * m == gap * m;
  }

  /** `Math.floor(roll * n)`: the index a draw `roll` of `Math.random()` selects. */
  function Pick(roll: real, n: nat): (i: nat)
    requires 0.0 <= roll < 1.0 && n > 0
    ensures i < n
  {
    ScaledDrawBelow(roll, n);
    (roll * n as real).Floor
  }

  /** The canned reply drawn for `message` with the draw `roll`: one of the
      replies of the first group the lower-cased message hits, or of the
      default group when it hits none. */
  function Choose(message: string, roll: real): (reply: Reply)
    requires 0.0 <= roll < 1.0
    ensures reply.topic == Classify(Lower(message))
    ensures reply.index < ReplyCount(reply.topic)
    ensures (forall u :: !Hits(Lower(message), u)) ==> reply.topic == Default
  {
    var topic := Classify(Lower(message));
    Reply(topic, Pick(roll, ReplyCount(topic)))
  }

  /** `generateFallbackResponse(message)`: the text of the drawn reply. */
  function Respond(message: string, roll: real): string
    requires 0.0 <= roll < 1.0
  {
    ReplyText(Choose(message, roll))
  }

  /** The draw does not depend on the case of the message: for the same
      `roll`, a message and its lower-cased copy get the same reply. */
  lemma ChooseCaseInsensitive(message: string, roll: real)
    requires 0.0 <= roll < 1.0
    ensures Choose(message, roll) == Choose(Lower(message), roll)
  {
    LowerIdempotent(message);
  }

  /** The keyword "quanto ci vuole" of the timeline group is shadowed by the
      pricing keyword "quanto", which is tested earlier: a message holding it
      never gets a timeline reply, and gets a pricing reply unless a services
      keyword occurs too. */
  lemma QuantoCiVuoleIsPricing(message: string, roll: real)
    requires 0.0 <= roll < 1.0
    requires Contains(Lower(message), "quanto ci vuole")
    ensures Choose(message, roll).topic in {Services, Pricing}
    ensures !Hits(Lower(message), Services) ==> Choose(message, roll).topic == Pricing
  {
    assert "quanto" + " ci vuole" == "quanto ci vuole";
    ContainsPrefixOfNeedle(Lower(message), "quanto", " ci vuole");
    assert Keywords(Pricing)[2] == "quanto";
  }
}
