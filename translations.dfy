/** The interface strings: one table per translated language, each complete for every
    key. */
module Translations {
  import opened Wrappers

  /** The keys of the interface strings (`TranslationKey`). */
  datatype TranslationKey =
    AppTitle | AppSubtitle | NewQuote | SavedJobs | StartEstimate | QuickQuotes | Features
    | Instant | Offline | Share | RealTimeCalc | WorksAnywhere | WhatsappReady | Settings
    | Currency | Language | AutoDetect | Detecting | Dimensions | Length | Width | Depth
    | DiggingOut | Fencing | Materials | Quote | DayRate | Days | LabourCost | TotalCost
    | ClientPrice | Send | Save | Reset | Copy | Copied | SelectCurrency | SelectLanguage
    | StartFreshEstimate | ViewPastEstimates | FenceCalculator | FenceLength | FenceHeight
    | GravelBoards | Panels | Posts | Postcrete | PostCaps | Results | Area | Volume
    | Slabs | SubBase | Sand | Skips | MaterialsRequired | QuoteSummary | ValidFor14Days
    | Feedback | SendFeedback | Bug | Idea | General | WhatAbout | RateExperience
    | Message | Cancel | Install | InstallApp | InstallDescription

  /** The key itself, as the text `t` falls back to last. */
  function KeyName(key: TranslationKey): (s: string)
    ensures s != []
  {
    match key
    case AppTitle => "appTitle"
    case AppSubtitle => "appSubtitle"
    case NewQuote => "newQuote"
    case SavedJobs => "savedJobs"
    case StartEstimate => "startEstimate"
    case QuickQuotes => "quickQuotes"
    case Features => "features"
    case Instant => "instant"
    case Offline => "offline"
    case Share => "share"
    case RealTimeCalc => "realTimeCalc"
    case WorksAnywhere => "worksAnywhere"
    case WhatsappReady => "whatsappReady"
    case Settings => "settings"
    case Currency => "currency"
    case Language => "language"
    case AutoDetect => "autoDetect"
    case Detecting => "detecting"
    case Dimensions => "dimensions"
    case Length => "length"
    case Width => "width"
    case Depth => "depth"
    case DiggingOut => "diggingOut"
    case Fencing => "fencing"
    case Materials => "materials"
    case Quote => "quote"
    case DayRate => "dayRate"
    case Days => "days"
    case LabourCost => "labourCost"
    case TotalCost => "totalCost"
    case ClientPrice => "clientPrice"
    case Send => "send"
    case Save => "save"
    case Reset => "reset"
    case Copy => "copy"
    case Copied => "copied"
    case SelectCurrency => "selectCurrency"
    case SelectLanguage => "selectLanguage"
    case StartFreshEstimate => "startFreshEstimate"
    case ViewPastEstimates => "viewPastEstimates"
    case FenceCalculator => "fenceCalculator"
    case FenceLength => "fenceLength"
    case FenceHeight => "fenceHeight"
    case GravelBoards => "gravelBoards"
    case Panels => "panels"
    case Posts => "posts"
    case Postcrete => "postcrete"
    case PostCaps => "postCaps"
    case Results => "results"
    case Area => "area"
    case Volume => "volume"
    case Slabs => "slabs"
    case SubBase => "subBase"
    case Sand => "sand"
    case Skips => "skips"
    case MaterialsRequired => "materialsRequired"
    case QuoteSummary => "quoteSummary"
    case ValidFor14Days => "validFor14Days"
    case Feedback => "feedback"
    case SendFeedback => "sendFeedback"
    case Bug => "bug"
    case Idea => "idea"
    case General => "general"
    case WhatAbout => "whatAbout"
    case RateExperience => "rateExperience"
    case Message => "message"
    case Cancel => "cancel"
    case Install => "install"
    case InstallApp => "installApp"
    case InstallDescription => "installDescription"
  }

  /** The `en` table. */
  function EnglishText(key: TranslationKey): (s: string)
    ensures s != []
  {
    match key
    case AppTitle => "InstaQuote"
    case AppSubtitle => "Your pocket estimator"
    case NewQuote => "New Quote"
    case SavedJobs => "Saved Jobs"
    case StartEstimate => "Start Estimating"
    case QuickQuotes => "Quick Quotes, On Site"
    case Features => "Features"
    case Instant => "Instant"
    case Offline => "Offline"
    case Share => "Share"
    case RealTimeCalc => "Real-time calculations"
    case WorksAnywhere => "Works anywhere"
    case WhatsappReady => "WhatsApp ready"
    case Settings => "Settings"
    case Currency => "Currency"
    case Language => "Language"
    case AutoDetect => "Auto-detect location"
    case Detecting => "Detecting..."
    case Dimensions => "Dimensions"
    case Length => "Length"
    case Width => "Width"
    case Depth => "Depth"
    case DiggingOut => "Digging Out?"
    case Fencing => "Fencing?"
    case Materials => "Materials"
    case Quote => "Quote"
    case DayRate => "Day Rate"
    case Days => "days"
    case LabourCost => "Labour"
    case TotalCost => "Cost to You"
    case ClientPrice => "Price to Client"
    case Send => "Send"
    case Save => "Save"
    case Reset => "Reset"
    case Copy => "Copy"
    case Copied => "Copied!"
    case SelectCurrency => "Select Currency"
    case SelectLanguage => "Select Language"
    case StartFreshEstimate => "Start a fresh estimate"
    case ViewPastEstimates => "View past estimates"
    case FenceCalculator => "Fence Calculator"
    case FenceLength => "Fence Line Length"
    case FenceHeight => "Fence Height"
    case GravelBoards => "Gravel Boards"
    case Panels => "Panels"
    case Posts => "Posts"
    case Postcrete => "Postcrete"
    case PostCaps => "Post Caps"
    case Results => "Results"
    case Area => "Area"
    case Volume => "Volume"
    case Slabs => "Slabs (600x600)"
    case SubBase => "Sub-base"
    case Sand => "Sand"
    case Skips => "Skips needed"
    case MaterialsRequired => "Materials Required"
    case QuoteSummary => "Quote Summary"
    case ValidFor14Days => "This quote is valid for 14 days."
    case Feedback => "Feedback"
    case SendFeedback => "Send Feedback"
    case Bug => "Bug"
    case Idea => "Idea"
    case General => "General"
    case WhatAbout => "What's this about?"
    case RateExperience => "Rate your experience"
    case Message => "Message"
    case Cancel => "Cancel"
    case Install => "Install"
    case InstallApp => "Install App"
    case InstallDescription => "Add to home screen for quick access"
  }

  /** The `es` table. */
  function SpanishText(key: TranslationKey): (s: string)
    ensures s != []
  {
    match key
    case AppTitle => "InstaQuote"
    case AppSubtitle => "Tu estimador de bolsillo"
    case NewQuote => "Nueva Cotizaci\U{00F3}n"
    case SavedJobs => "Trabajos Guardados"
    case StartEstimate => "Comenzar a Estimar"
    case QuickQuotes => "Cotizaciones R\U{00E1}pidas, En Sitio"
    case Features => "Caracter\U{00ED}sticas"
    case Instant => "Instant\U{00E1}neo"
    case Offline => "Sin Conexi\U{00F3}n"
    case Share => "Compartir"
    case RealTimeCalc => "C\U{00E1}lculos en tiempo real"
    case WorksAnywhere => "Funciona en cualquier lugar"
    case WhatsappReady => "Listo para WhatsApp"
    case Settings => "Configuraci\U{00F3}n"
    case Currency => "Moneda"
    case Language => "Idioma"
    case AutoDetect => "Detectar ubicaci\U{00F3}n autom\U{00E1}ticamente"
    case Detecting => "Detectando..."
    case Dimensions => "Dimensiones"
    case Length => "Largo"
    case Width => "Ancho"
    case Depth => "Profundidad"
    case DiggingOut => "\U{00BF}Excavando?"
    case Fencing => "\U{00BF}Cercado?"
    case Materials => "Materiales"
    case Quote => "Cotizaci\U{00F3}n"
    case DayRate => "Tarifa Diaria"
    case Days => "d\U{00ED}as"
    case LabourCost => "Mano de Obra"
    case TotalCost => "Costo para Ti"
    case ClientPrice => "Precio al Cliente"
    case Send => "Enviar"
    case Save => "Guardar"
    case Reset => "Reiniciar"
    case Copy => "Copiar"
    case Copied => "\U{00A1}Copiado!"
    case SelectCurrency => "Seleccionar Moneda"
    case SelectLanguage => "Seleccionar Idioma"
    case StartFreshEstimate => "Iniciar una nueva estimaci\U{00F3}n"
    case ViewPastEstimates => "Ver estimaciones anteriores"
    case FenceCalculator => "Calculadora de Cercas"
    case FenceLength => "Longitud de Cerca"
    case FenceHeight => "Altura de Cerca"
    case GravelBoards => "Tablas de Grava"
    case Panels => "Paneles"
    case Posts => "Postes"
    case Postcrete => "Postcrete"
    case PostCaps => "Tapas de Postes"
    case Results => "Resultados"
    case Area => "\U{00C1}rea"
    case Volume => "Volumen"
    case Slabs => "Losas (600x600)"
    case SubBase => "Sub-base"
    case Sand => "Arena"
    case Skips => "Contenedores necesarios"
    case MaterialsRequired => "Materiales Requeridos"
    case QuoteSummary => "Resumen de Cotizaci\U{00F3}n"
    case ValidFor14Days => "Esta cotizaci\U{00F3}n es v\U{00E1}lida por 14 d\U{00ED}as."
    case Feedback => "Comentarios"
    case SendFeedback => "Enviar Comentarios"
    case Bug => "Error"
    case Idea => "Idea"
    case General => "General"
    case WhatAbout => "\U{00BF}De qu\U{00E9} se trata?"
    case RateExperience => "Califica tu experiencia"
    case Message => "Mensaje"
    case Cancel => "Cancelar"
    case Install => "Instalar"
    case InstallApp => "Instalar App"
    case InstallDescription => "A\U{00F1}adir a la pantalla de inicio para acceso r\U{00E1}pido"
  }

  /** The `fr` table. */
  function FrenchText(key: TranslationKey): (s: string)
    ensures s != []
  {
    match key
    case AppTitle => "InstaQuote"
    case AppSubtitle => "Votre estimateur de poche"
    case NewQuote => "Nouveau Devis"
    case SavedJobs => "Travaux Sauvegard\U{00E9}s"
    case StartEstimate => "Commencer l'Estimation"
    case QuickQuotes => "Devis Rapides, Sur Site"
    case Features => "Fonctionnalit\U{00E9}s"
    case Instant => "Instantan\U{00E9}"
    case Offline => "Hors Ligne"
    case Share => "Partager"
    case RealTimeCalc => "Calculs en temps r\U{00E9}el"
    case WorksAnywhere => "Fonctionne partout"
    case WhatsappReady => "Pr\U{00EA}t pour WhatsApp"
    case Settings => "Param\U{00E8}tres"
    case Currency => "Devise"
    case Language => "Langue"
    case AutoDetect => "D\U{00E9}tection automatique"
    case Detecting => "D\U{00E9}tection..."
    case Dimensions => "Dimensions"
    case Length => "Longueur"
    case Width => "Largeur"
    case Depth => "Profondeur"
    case DiggingOut => "Creuser?"
    case Fencing => "Cl\U{00F4}ture?"
    case Materials => "Mat\U{00E9}riaux"
    case Quote => "Devis"
    case DayRate => "Tarif Journalier"
    case Days => "jours"
    case LabourCost => "Main d'\U{0153}uvre"
    case TotalCost => "Co\U{00FB}t pour Vous"
    case ClientPrice => "Prix Client"
    case Send => "Envoyer"
    case Save => "Sauvegarder"
    case Reset => "R\U{00E9}initialiser"
    case Copy => "Copier"
    case Copied => "Copi\U{00E9}!"
    case SelectCurrency => "S\U{00E9}lectionner Devise"
    case SelectLanguage => "S\U{00E9}lectionner Langue"
    case StartFreshEstimate => "D\U{00E9}marrer une nouvelle estimation"
    case ViewPastEstimates => "Voir les estimations pass\U{00E9}es"
    case FenceCalculator => "Calculateur de Cl\U{00F4}ture"
    case FenceLength => "Longueur de Cl\U{00F4}ture"
    case FenceHeight => "Hauteur de Cl\U{00F4}ture"
    case GravelBoards => "Planches de Gravier"
    case Panels => "Panneaux"
    case Posts => "Poteaux"
    case Postcrete => "Postcrete"
    case PostCaps => "Capuchons"
    case Results => "R\U{00E9}sultats"
    case Area => "Surface"
    case Volume => "Volume"
    case Slabs => "Dalles (600x600)"
    case SubBase => "Sous-couche"
    case Sand => "Sable"
    case Skips => "Bennes n\U{00E9}cessaires"
    case MaterialsRequired => "Mat\U{00E9}riaux Requis"
    case QuoteSummary => "R\U{00E9}sum\U{00E9} du Devis"
    case ValidFor14Days => "Ce devis est valable 14 jours."
    case Feedback => "Commentaires"
    case SendFeedback => "Envoyer Commentaires"
    case Bug => "Bug"
    case Idea => "Id\U{00E9}e"
    case General => "G\U{00E9}n\U{00E9}ral"
    case WhatAbout => "De quoi s'agit-il?"
    case RateExperience => "\U{00C9}valuez votre exp\U{00E9}rience"
    case Message => "Message"
    case Cancel => "Annuler"
    case Install => "Installer"
    case InstallApp => "Installer l'App"
    case InstallDescription => "Ajouter \U{00E0} l'\U{00E9}cran d'accueil pour un acc\U{00E8}s rapide"
  }

  /** The `de` table. */
  function GermanText(key: TranslationKey): (s: string)
    ensures s != []
  {
    match key
    case AppTitle => "InstaQuote"
    case AppSubtitle => "Ihr Taschenrechner"
    case NewQuote => "Neues Angebot"
    case SavedJobs => "Gespeicherte Jobs"
    case StartEstimate => "Sch\U{00E4}tzung Starten"
    case QuickQuotes => "Schnelle Angebote, Vor Ort"
    case Features => "Funktionen"
    case Instant => "Sofort"
    case Offline => "Offline"
    case Share => "Teilen"
    case RealTimeCalc => "Echtzeit-Berechnungen"
    case WorksAnywhere => "Funktioniert \U{00FC}berall"
    case WhatsappReady => "WhatsApp-f\U{00E4}hig"
    case Settings => "Einstellungen"
    case Currency => "W\U{00E4}hrung"
    case Language => "Sprache"
    case AutoDetect => "Standort automatisch erkennen"
    case Detecting => "Erkennung..."
    case Dimensions => "Abmessungen"
    case Length => "L\U{00E4}nge"
    case Width => "Breite"
    case Depth => "Tiefe"
    case DiggingOut => "Ausheben?"
    case Fencing => "Zaun?"
    case Materials => "Materialien"
    case Quote => "Angebot"
    case DayRate => "Tagessatz"
    case Days => "Tage"
    case LabourCost => "Arbeitskosten"
    case TotalCost => "Ihre Kosten"
    case ClientPrice => "Kundenpreis"
    case Send => "Senden"
    case Save => "Speichern"
    case Reset => "Zur\U{00FC}cksetzen"
    case Copy => "Kopieren"
    case Copied => "Kopiert!"
    case SelectCurrency => "W\U{00E4}hrung Ausw\U{00E4}hlen"
    case SelectLanguage => "Sprache Ausw\U{00E4}hlen"
    case StartFreshEstimate => "Neue Sch\U{00E4}tzung starten"
    case ViewPastEstimates => "Vergangene Sch\U{00E4}tzungen ansehen"
    case FenceCalculator => "Zaun-Rechner"
    case FenceLength => "Zaunl\U{00E4}nge"
    case FenceHeight => "Zaunh\U{00F6}he"
    case GravelBoards => "Kiesbretter"
    case Panels => "Paneele"
    case Posts => "Pfosten"
    case Postcrete => "Pfostenbeton"
    case PostCaps => "Pfostenkappen"
    case Results => "Ergebnisse"
    case Area => "Fl\U{00E4}che"
    case Volume => "Volumen"
    case Slabs => "Platten (600x600)"
    case SubBase => "Unterbau"
    case Sand => "Sand"
    case Skips => "Container ben\U{00F6}tigt"
    case MaterialsRequired => "Ben\U{00F6}tigte Materialien"
    case QuoteSummary => "Angebotszusammenfassung"
    case ValidFor14Days => "Dieses Angebot ist 14 Tage g\U{00FC}ltig."
    case Feedback => "Feedback"
    case SendFeedback => "Feedback Senden"
    case Bug => "Fehler"
    case Idea => "Idee"
    case General => "Allgemein"
    case WhatAbout => "Worum geht es?"
    case RateExperience => "Bewerten Sie Ihre Erfahrung"
    case Message => "Nachricht"
    case Cancel => "Abbrechen"
    case Install => "Installieren"
    case InstallApp => "App Installieren"
    case InstallDescription => "Zum Startbildschirm hinzuf\U{00FC}gen f\U{00FC}r schnellen Zugriff"
  }

  /** The `pt` table. */
  function PortugueseText(key: TranslationKey): (s: string)
    ensures s != []
  {
    match key
    case AppTitle => "InstaQuote"
    case AppSubtitle => "Seu estimador de bolso"
    case NewQuote => "Novo Or\U{00E7}amento"
    case SavedJobs => "Trabalhos Salvos"
    case StartEstimate => "Iniciar Estimativa"
    case QuickQuotes => "Or\U{00E7}amentos R\U{00E1}pidos, No Local"
    case Features => "Recursos"
    case Instant => "Instant\U{00E2}neo"
    case Offline => "Offline"
    case Share => "Compartilhar"
    case RealTimeCalc => "C\U{00E1}lculos em tempo real"
    case WorksAnywhere => "Funciona em qualquer lugar"
    case WhatsappReady => "Pronto para WhatsApp"
    case Settings => "Configura\U{00E7}\U{00F5}es"
    case Currency => "Moeda"
    case Language => "Idioma"
    case AutoDetect => "Detectar localiza\U{00E7}\U{00E3}o automaticamente"
    case Detecting => "Detectando..."
    case Dimensions => "Dimens\U{00F5}es"
    case Length => "Comprimento"
    case Width => "Largura"
    case Depth => "Profundidade"
    case DiggingOut => "Escavando?"
    case Fencing => "Cerca?"
    case Materials => "Materiais"
    case Quote => "Or\U{00E7}amento"
    case DayRate => "Di\U{00E1}ria"
    case Days => "dias"
    case LabourCost => "M\U{00E3}o de Obra"
    case TotalCost => "Custo para Voc\U{00EA}"
    case ClientPrice => "Pre\U{00E7}o ao Cliente"
    case Send => "Enviar"
    case Save => "Salvar"
    case Reset => "Reiniciar"
    case Copy => "Copiar"
    case Copied => "Copiado!"
    case SelectCurrency => "Selecionar Moeda"
    case SelectLanguage => "Selecionar Idioma"
    case StartFreshEstimate => "Iniciar nova estimativa"
    case ViewPastEstimates => "Ver estimativas anteriores"
    case FenceCalculator => "Calculadora de Cercas"
    case FenceLength => "Comprimento da Cerca"
    case FenceHeight => "Altura da Cerca"
    case GravelBoards => "T\U{00E1}buas de Cascalho"
    case Panels => "Pain\U{00E9}is"
    case Posts => "Postes"
    case Postcrete => "Postcrete"
    case PostCaps => "Tampas de Postes"
    case Results => "Resultados"
    case Area => "\U{00C1}rea"
    case Volume => "Volume"
    case Slabs => "Lajes (600x600)"
    case SubBase => "Sub-base"
    case Sand => "Areia"
    case Skips => "Ca\U{00E7}ambas necess\U{00E1}rias"
    case MaterialsRequired => "Materiais Necess\U{00E1}rios"
    case QuoteSummary => "Resumo do Or\U{00E7}amento"
    case ValidFor14Days => "Este or\U{00E7}amento \U{00E9} v\U{00E1}lido por 14 dias."
    case Feedback => "Feedback"
    case SendFeedback => "Enviar Feedback"
    case Bug => "Bug"
    case Idea => "Ideia"
    case General => "Geral"
    case WhatAbout => "Sobre o qu\U{00EA}?"
    case RateExperience => "Avalie sua experi\U{00EA}ncia"
    case Message => "Mensagem"
    case Cancel => "Cancelar"
    case Install => "Instalar"
    case InstallApp => "Instalar App"
    case InstallDescription => "Adicionar \U{00E0} tela inicial para acesso r\U{00E1}pido"
  }

  /** The table of a language, if it has one (`TRANSLATIONS[language]`). */
  function TableText(language: string, key: TranslationKey): Option<string> {
    if language == "en" then Some(EnglishText(key))
    else if language == "es" then Some(SpanishText(key))
    else if language == "fr" then Some(FrenchText(key))
    else if language == "de" then Some(GermanText(key))
    else if language == "pt" then Some(PortugueseText(key))
    else None
  }

  /** `t(key)`: the language's own string if it has a table and the string is not empty,
      else the English one if that is not empty, else the key. */
  function Translate(language: string, key: TranslationKey): (s: string)
    ensures s != []
    ensures TableText(language, key).Some? ==> s == TableText(language, key).value
    ensures TableText(language, key).None? ==> s == EnglishText(key)
  {
    var own := TableText(language, key);
    if own.Some? && own.value != "" then own.value
    else if EnglishText(key) != "" then EnglishText(key)
    else KeyName(key)
  }
}
