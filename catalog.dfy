/**
 * The static locale catalog of the portfolio page: the ordered list of
 * locales offered by the language selector and the per-locale translation
 * tables, exactly as the page declares them.
 */
module LocaleCatalog {

  /** One entry of the language selector: a locale code and its display name (`label` in the page). */
  datatype LocaleEntry = LocaleEntry(code: string, name: string)

  /** A flat key-to-string dictionary for one locale. */
  type Table = map<string, string>

  /** Locale code to its table. */
  type Catalog = map<string, Table>

  /** The locale every lookup falls back to. */
  const BaseLocale: string := "en"

  /** The locale the page starts in. */
  const DefaultLocale: string := "ru"

  /** The one locale written right to left. */
  const RtlLocale: string := "ar"

  /** The locales offered by the selector, in display order. */
  const Languages: seq<LocaleEntry> := [
    LocaleEntry("en", "English"),
    LocaleEntry("zh", "中文"),
    LocaleEntry("hi", "हिन्दी"),
    LocaleEntry("es", "Español"),
    LocaleEntry("fr", "Français"),
    LocaleEntry("ar", "العربية"),
    LocaleEntry("bn", "বাংলা"),
    LocaleEntry("pt", "Português"),
    LocaleEntry("ru", "Русский"),
    LocaleEntry("ja", "日本語")
  ]

  /** Every key the page passes to the translator, in the order of the base table. */
  const PageKeys: seq<string> := [
    "portfolio_tag", "hero_line1", "hero_line2", "listen_releases", "booking",
    "releases", "new_tracks", "watch_all", "video", "video_title",
    "video_desc", "watch", "contact_tag", "contact_title", "name_label",
    "email_label", "message_label", "send_request", "more_soon_title", "more_soon_desc",
    "faq_title", "faq_q1", "faq_a1", "faq_q2", "faq_a2",
    "faq_q3", "faq_a3", "faq_q4", "faq_a4", "press_title",
    "audiophile_title"
  ]

  /** The `en` table. */
  const EnTable: Table := map[
    "portfolio_tag" := "Music portfolio",
    "hero_line1" := "Ultimate Collection by Tonal Swell",
    "hero_line2" := "cinematic vintage tones for golden hours",
    "listen_releases" := "Listen releases",
    "booking" := "Booking",
    "releases" := "Releases",
    "new_tracks" := "New tracks",
    "watch_all" := "View all",
    "video" := "Video",
    "video_title" := "Official video",
    "video_desc" := "Official video with on‑screen lyrics.",
    "watch" := "Watch",
    "contact_tag" := "Booking & contacts",
    "contact_title" := "Get in touch",
    "name_label" := "Your name",
    "email_label" := "E‑mail",
    "message_label" := "Message",
    "send_request" := "Send",
    "more_soon_title" := "More soon",
    "more_soon_desc" := "More songs are on the way. Stay tuned.",
    "faq_title" := "FAQ",
    "faq_q1" := "Is this the official website?",
    "faq_a1" := "Yes — this is the official site of Tonal Swell.",
    "faq_q2" := "Where can I listen in high quality?",
    "faq_a2" := "See the separate Audiophile Release section (Qobuz).",
    "faq_q3" := "Business/press inquiries?",
    "faq_a3" := "Use the contact form – we’ll reply promptly.",
    "faq_q4" := "Can I use the music in my video?",
    "faq_a4" := "Write to us about licensing.",
    "press_title" := "In the press",
    "audiophile_title" := "Audiophile release"
  ]

  /** The `ru` table. */
  const RuTable: Table := map[
    "portfolio_tag" := "Музыкальное портфолио",
    "hero_line1" := "Ultimate Collection by Tonal Swell",
    "hero_line2" := "кинематографичный винтаж для золотого часа",
    "listen_releases" := "Слушать релизы",
    "booking" := "Бронирование",
    "releases" := "Релизы",
    "new_tracks" := "Новые треки",
    "watch_all" := "Смотреть все",
    "video" := "Видео",
    "video_title" := "Официальное видео",
    "video_desc" := "Официальное видео с текстом песни на экране.",
    "watch" := "Смотреть",
    "contact_tag" := "Бронирование и связи",
    "contact_title" := "Свяжитесь с нами",
    "name_label" := "Ваше имя",
    "email_label" := "E‑mail",
    "message_label" := "Сообщение",
    "send_request" := "Отправить",
    "more_soon_title" := "Скоро больше",
    "more_soon_desc" := "Новые песни уже в пути. Оставайтесь на связи.",
    "faq_title" := "FAQ",
    "faq_q1" := "Это официальный сайт?",
    "faq_a1" := "Да — официальный сайт Tonal Swell.",
    "faq_q2" := "Где послушать в наилучшем качестве?",
    "faq_a2" := "Смотрите отдельный раздел про Qobuz.",
    "faq_q3" := "По деловым/PR вопросам?",
    "faq_a3" := "Напишите через форму — ответим оперативно.",
    "faq_q4" := "Можно использовать музыку в видео?",
    "faq_a4" := "Свяжитесь с нами по поводу лицензирования.",
    "press_title" := "Пишут о нас",
    "audiophile_title" := "Аудиофильный релиз"
  ]

  /** The `es` table. */
  const EsTable: Table := map[
    "portfolio_tag" := "Portfolio musical",
    "hero_line1" := "Ultimate Collection by Tonal Swell",
    "hero_line2" := "tonos vintage cinematográficos",
    "listen_releases" := "Escuchar",
    "booking" := "Booking",
    "releases" := "Lanzamientos",
    "new_tracks" := "Nuevos temas",
    "watch_all" := "Ver todo",
    "video" := "Video",
    "video_title" := "Video oficial",
    "video_desc" := "Video oficial con letra en pantalla.",
    "watch" := "Ver",
    "contact_tag" := "Booking y contacto",
    "contact_title" := "Escríbenos",
    "name_label" := "Tu nombre",
    "email_label" := "E‑mail",
    "message_label" := "Mensaje",
    "send_request" := "Enviar",
    "more_soon_title" := "Más pronto",
    "more_soon_desc" := "Más canciones en camino.",
    "faq_title" := "FAQ",
    "faq_q1" := "¿Este es el sitio oficial?",
    "faq_a1" := "Sí — sitio oficial de Tonal Swell.",
    "faq_q2" := "¿Dónde escuchar en alta calidad?",
    "faq_a2" := "Mira la sección de Qobuz.",
    "faq_q3" := "¿Prensa/negocios?",
    "faq_a3" := "Usa el formulario de contacto.",
    "faq_q4" := "¿Puedo usar la música en mi video?",
    "faq_a4" := "Escríbenos sobre licencias.",
    "press_title" := "En la prensa",
    "audiophile_title" := "Lanzamiento audiófilo"
  ]

  /** The `fr` table. */
  const FrTable: Table := map[
    "portfolio_tag" := "Portfolio musical",
    "hero_line1" := "Ultimate Collection by Tonal Swell",
    "hero_line2" := "tons vintage cinématographiques",
    "listen_releases" := "Écouter",
    "booking" := "Booking",
    "releases" := "Sorties",
    "new_tracks" := "Nouveaux titres",
    "watch_all" := "Tout voir",
    "video" := "Vidéo",
    "video_title" := "Clip officiel",
    "video_desc" := "Clip officiel avec paroles à l'écran.",
    "watch" := "Regarder",
    "contact_tag" := "Booking & contacts",
    "contact_title" := "Nous contacter",
    "name_label" := "Votre nom",
    "email_label" := "E‑mail",
    "message_label" := "Message",
    "send_request" := "Envoyer",
    "more_soon_title" := "Bientôt plus",
    "more_soon_desc" := "D'autres titres arrivent.",
    "faq_title" := "FAQ",
    "faq_q1" := "Ceci est-il le site officiel ?",
    "faq_a1" := "Oui — site officiel de Tonal Swell.",
    "faq_q2" := "Où écouter en haute qualité ?",
    "faq_a2" := "Voir la section Qobuz.",
    "faq_q3" := "Presse/affaires ?",
    "faq_a3" := "Utilisez le formulaire.",
    "faq_q4" := "Puis-je utiliser la musique dans ma vidéo ?",
    "faq_a4" := "Écrivez-nous pour la licence.",
    "press_title" := "Dans la presse",
    "audiophile_title" := "Sortie audiophile"
  ]

  /** The `pt` table. */
  const PtTable: Table := map[
    "portfolio_tag" := "Portfólio musical",
    "hero_line1" := "Ultimate Collection by Tonal Swell",
    "hero_line2" := "tons vintage cinematográficos",
    "listen_releases" := "Ouvir",
    "booking" := "Booking",
    "releases" := "Lançamentos",
    "new_tracks" := "Novas faixas",
    "watch_all" := "Ver tudo",
    "video" := "Vídeo",
    "video_title" := "Vídeo oficial",
    "video_desc" := "Vídeo oficial com letra na tela.",
    "watch" := "Assistir",
    "contact_tag" := "Booking e contatos",
    "contact_title" := "Fale conosco",
    "name_label" := "Seu nome",
    "email_label" := "E‑mail",
    "message_label" := "Mensagem",
    "send_request" := "Enviar",
    "more_soon_title" := "Em breve",
    "more_soon_desc" := "Mais músicas chegando.",
    "faq_title" := "FAQ",
    "faq_q1" := "Este é o site oficial?",
    "faq_a1" := "Sim — site oficial de Tonal Swell.",
    "faq_q2" := "Onde ouvir em alta qualidade?",
    "faq_a2" := "Veja a seção Qobuz.",
    "faq_q3" := "Imprensa/negócios?",
    "faq_a3" := "Use o formulário de contato.",
    "faq_q4" := "Posso usar a música no meu vídeo?",
    "faq_a4" := "Escreva sobre licenciamento.",
    "press_title" := "Na imprensa",
    "audiophile_title" := "Lançamento audiófilo"
  ]

  /** The `zh` table. */
  const ZhTable: Table := map[
    "portfolio_tag" := "音乐作品集",
    "hero_line1" := "Ultimate Collection by Tonal Swell",
    "hero_line2" := "电影感复古音色",
    "listen_releases" := "收听",
    "booking" := "演出联系",
    "releases" := "发行",
    "new_tracks" := "新曲目",
    "watch_all" := "查看全部",
    "video" := "视频",
    "video_title" := "官方视频",
    "video_desc" := "带屏幕歌词的官方视频。",
    "watch" := "观看",
    "contact_tag" := "联系与预订",
    "contact_title" := "联系我们",
    "name_label" := "你的名字",
    "email_label" := "邮箱",
    "message_label" := "留言",
    "send_request" := "发送",
    "more_soon_title" := "更多即将到来",
    "more_soon_desc" := "更多歌曲路上，敬请期待。",
    "faq_title" := "常见问题",
    "faq_q1" := "这是官方网站吗？",
    "faq_a1" := "是的——这是 Tonal Swell 的官方网站。",
    "faq_q2" := "哪里能高品质收听？",
    "faq_a2" := "见 Qobuz 专区。",
    "faq_q3" := "商务/媒体联系？",
    "faq_a3" := "使用联系表单。",
    "faq_q4" := "我可以在视频中使用音乐吗？",
    "faq_a4" := "请联系我们获取许可。",
    "press_title" := "媒体报道",
    "audiophile_title" := "发烧友发行"
  ]

  /** The `hi` table. */
  const HiTable: Table := map[
    "portfolio_tag" := "संगीत पोर्टफोलियो",
    "hero_line1" := "Ultimate Collection by Tonal Swell",
    "hero_line2" := "सिनेमैटिक विंटेज टोन",
    "listen_releases" := "सुनें",
    "booking" := "बुकिंग",
    "releases" := "रिलीज़",
    "new_tracks" := "नए ट्रैक",
    "watch_all" := "सब देखें",
    "video" := "वीडियो",
    "video_title" := "ऑफिशियल वीडियो",
    "video_desc" := "स्क्रीन पर लिरिक्स के साथ ऑफिशियल वीडियो।",
    "watch" := "देखें",
    "contact_tag" := "बुकिंग और संपर्क",
    "contact_title" := "हमसे जुड़ें",
    "name_label" := "आपका नाम",
    "email_label" := "ई‑मेल",
    "message_label" := "संदेश",
    "send_request" := "भेजें",
    "more_soon_title" := "जल्द ही और",
    "more_soon_desc" := "और गाने आ रहे हैं।",
    "faq_title" := "सामान्य प्रश्न",
    "faq_q1" := "क्या यह आधिकारिक वेबसाइट है?",
    "faq_a1" := "हाँ — Tonal Swell की आधिकारिक साइट।",
    "faq_q2" := "उच्च गुणवत्ता में कहाँ सुनें?",
    "faq_a2" := "Qobuz सेक्शन देखें।",
    "faq_q3" := "प्रेस/व्यापार पूछताछ?",
    "faq_a3" := "कॉन्टैक्ट फ़ॉर्म का उपयोग करें।",
    "faq_q4" := "क्या मैं अपने वीडियो में संगीत उपयोग कर सकता हूँ?",
    "faq_a4" := "लाइसेंस के लिए लिखें।",
    "press_title" := "प्रेस में",
    "audiophile_title" := "ऑडियोफाइल रिलीज़"
  ]

  /** The `ar` table. */
  const ArTable: Table := map[
    "portfolio_tag" := "معرض موسيقي",
    "hero_line1" := "Ultimate Collection by Tonal Swell",
    "hero_line2" := "نغمات سينمائية قديمة",
    "listen_releases" := "استمع",
    "booking" := "الحجوزات",
    "releases" := "الإصدارات",
    "new_tracks" := "أغانٍ جديدة",
    "watch_all" := "عرض الكل",
    "video" := "فيديو",
    "video_title" := "فيديو رسمي",
    "video_desc" := "فيديو رسمي مع كلمات على الشاشة.",
    "watch" := "مشاهدة",
    "contact_tag" := "الحجز والتواصل",
    "contact_title" := "تواصل معنا",
    "name_label" := "اسمك",
    "email_label" := "البريد الإلكتروني",
    "message_label" := "رسالة",
    "send_request" := "إرسال",
    "more_soon_title" := "المزيد قريبًا",
    "more_soon_desc" := "أغانٍ أخرى في الطريق.",
    "faq_title" := "الأسئلة الشائعة",
    "faq_q1" := "هل هذا الموقع الرسمي؟",
    "faq_a1" := "نعم — الموقع الرسمي لـ Tonal Swell.",
    "faq_q2" := "أين أستمع بجودة عالية؟",
    "faq_a2" := "راجع قسم Qobuz.",
    "faq_q3" := "استفسارات الصحافة/الأعمال؟",
    "faq_a3" := "استخدم نموذج الاتصال.",
    "faq_q4" := "هل يمكنني استخدام الموسيقى في فيديو؟",
    "faq_a4" := "راسلنا بشأن الترخيص.",
    "press_title" := "في الصحافة",
    "audiophile_title" := "إصدار لهواة الصوت"
  ]

  /** The `bn` table. */
  const BnTable: Table := map[
    "portfolio_tag" := "সঙ্গীত পোর্টফোলিও",
    "hero_line1" := "Ultimate Collection by Tonal Swell",
    "hero_line2" := "সিনেমাটিক ভিন্টেজ টোন",
    "listen_releases" := "শুনুন",
    "booking" := "বুকিং",
    "releases" := "রিলিজ",
    "new_tracks" := "নতুন ট্র্যাক",
    "watch_all" := "সব দেখুন",
    "video" := "ভিডিও",
    "video_title" := "অফিসিয়াল ভিডিও",
    "video_desc" := "অন-স্ক্রিন গানের কথাসহ অফিসিয়াল ভিডিও।",
    "watch" := "দেখুন",
    "contact_tag" := "বুকিং ও যোগাযোগ",
    "contact_title" := "যোগাযোগ করুন",
    "name_label" := "আপনার নাম",
    "email_label" := "ই‑মেইল",
    "message_label" := "বার্তা",
    "send_request" := "পাঠান",
    "more_soon_title" := "শীঘ্রই আরও",
    "more_soon_desc" := "আরও গান আসছে।",
    "faq_title" := "জিজ্ঞাসা",
    "faq_q1" := "এটি কি অফিসিয়াল ওয়েবসাইট?",
    "faq_a1" := "হ্যাঁ — Tonal Swell-এর অফিসিয়াল সাইট।",
    "faq_q2" := "উচ্চ মানে কোথায় শুনবো?",
    "faq_a2" := "Qobuz বিভাগ দেখুন।",
    "faq_q3" := "ব্যবসা/প্রেস?",
    "faq_a3" := "ফর্মটি ব্যবহার করুন।",
    "faq_q4" := "আমি কি ভিডিওতে ব্যবহার করতে পারি?",
    "faq_a4" := "লাইসেন্সের জন্য লিখুন।",
    "press_title" := "মিডিয়ায়",
    "audiophile_title" := "অডিওফাইল রিলিজ"
  ]

  /** The `ja` table. */
  const JaTable: Table := map[
    "portfolio_tag" := "ミュージック・ポートフォリオ",
    "hero_line1" := "Ultimate Collection by Tonal Swell",
    "hero_line2" := "シネマティックなヴィンテージトーン",
    "listen_releases" := "聴く",
    "booking" := "ブッキング",
    "releases" := "リリース",
    "new_tracks" := "新曲",
    "watch_all" := "すべて見る",
    "video" := "動画",
    "video_title" := "公式映像",
    "video_desc" := "歌詞表示付きの公式映像。",
    "watch" := "見る",
    "contact_tag" := "ブッキング＆連絡",
    "contact_title" := "お問い合わせ",
    "name_label" := "お名前",
    "email_label" := "メール",
    "message_label" := "メッセージ",
    "send_request" := "送信",
    "more_soon_title" := "近日公開",
    "more_soon_desc" := "新しい曲を準備中。",
    "faq_title" := "FAQ",
    "faq_q1" := "公式サイトですか？",
    "faq_a1" := "はい — Tonal Swell の公式サイトです。",
    "faq_q2" := "高音質で聴くには？",
    "faq_a2" := "Qobuz セクションをご覧ください。",
    "faq_q3" := "ビジネス/プレス問い合わせは？",
    "faq_a3" := "コンタクトフォームをご利用ください。",
    "faq_q4" := "動画で楽曲を使えますか？",
    "faq_a4" := "ライセンスについてご連絡ください。",
    "press_title" := "メディア掲載",
    "audiophile_title" := "オーディオファイル向け"
  ]

  /** The translation tables, keyed by locale code. */
  const Translations: Catalog := map[
    "en" := EnTable,
    "ru" := RuTable,
    "es" := EsTable,
    "fr" := FrTable,
    "pt" := PtTable,
    "zh" := ZhTable,
    "hi" := HiTable,
    "ar" := ArTable,
    "bn" := BnTable,
    "ja" := JaTable
  ]

  /** A table holds a non-empty string for every key the page uses. */
  predicate CoversPageKeys(t: Table)
  {
    forall i :: 0 <= i < |PageKeys| ==> PageKeys[i] in t && t[PageKeys[i]] != ""
  }

  lemma EnTableCoversPageKeys()
    ensures CoversPageKeys(EnTable)
  {
  }

  lemma RuTableCoversPageKeys()
    ensures CoversPageKeys(RuTable)
  {
  }

  lemma EsTableCoversPageKeys()
    ensures CoversPageKeys(EsTable)
  {
  }

  lemma FrTableCoversPageKeys()
    ensures CoversPageKeys(FrTable)
  {
  }

  lemma PtTableCoversPageKeys()
    ensures CoversPageKeys(PtTable)
  {
  }

  lemma ZhTableCoversPageKeys()
    ensures CoversPageKeys(ZhTable)
  {
  }

  lemma HiTableCoversPageKeys()
    ensures CoversPageKeys(HiTable)
  {
  }

  lemma ArTableCoversPageKeys()
    ensures CoversPageKeys(ArTable)
  {
  }

  lemma BnTableCoversPageKeys()
    ensures CoversPageKeys(BnTable)
  {
  }

  lemma JaTableCoversPageKeys()
    ensures CoversPageKeys(JaTable)
  {
  }

  /** Every table of a catalog holds a non-empty string for every key the page uses. */
  predicate Complete(c: Catalog)
  {
    forall code :: code in c ==> CoversPageKeys(c[code])
  }

  /** Every locale the selector offers has a table in the catalog. */
  predicate HasOfferedLocales(c: Catalog)
  {
    forall i :: 0 <= i < |Languages| ==> Languages[i].code in c
  }

  /**
   * What the page relies on in a catalog: the base table exists, every
   * offered locale has a table, and every table holds every page key.
   */
  predicate ValidCatalog(c: Catalog)
  {
    BaseLocale in c && HasOfferedLocales(c) && Complete(c)
  }

  /**
   * A catalog laid out like the page's, one table per locale code, is valid
   * as soon as each of its tables holds every page key.
   */
  lemma LaidOutCatalogValid(en: Table, ru: Table, es: Table, fr: Table, pt: Table, zh: Table, hi: Table, ar: Table, bn: Table, ja: Table)
    requires CoversPageKeys(en) && CoversPageKeys(ru) && CoversPageKeys(es) && CoversPageKeys(fr) && CoversPageKeys(pt) && CoversPageKeys(zh) && CoversPageKeys(hi) && CoversPageKeys(ar) && CoversPageKeys(bn) && CoversPageKeys(ja)
    ensures ValidCatalog(map["en" := en, "ru" := ru, "es" := es, "fr" := fr, "pt" := pt, "zh" := zh, "hi" := hi, "ar" := ar, "bn" := bn, "ja" := ja])
  {
    var c := map["en" := en, "ru" := ru, "es" := es, "fr" := fr, "pt" := pt, "zh" := zh, "hi" := hi, "ar" := ar, "bn" := bn, "ja" := ja];
    LaidOutCatalogHasOfferedLocales(c);
    forall code | code in c
      ensures CoversPageKeys(c[code])
    {
    }
  }

  /** Each offered locale appears among the ten codes of the page's catalog. */
  lemma LaidOutCatalogHasOfferedLocales(c: Catalog)
    requires forall code :: code in ["en", "ru", "es", "fr", "pt", "zh", "hi", "ar", "bn", "ja"] ==> code in c
    ensures HasOfferedLocales(c)
  {
  }

  /** The shipped catalog is valid: all ten tables hold all 31 page keys. */
  lemma ShippedCatalogValid()
    ensures ValidCatalog(Translations)
  {
    EnTableCoversPageKeys();
    RuTableCoversPageKeys();
    EsTableCoversPageKeys();
    FrTableCoversPageKeys();
    PtTableCoversPageKeys();
    ZhTableCoversPageKeys();
    HiTableCoversPageKeys();
    ArTableCoversPageKeys();
    BnTableCoversPageKeys();
    JaTableCoversPageKeys();
    LaidOutCatalogValid(EnTable, RuTable, EsTable, FrTable, PtTable, ZhTable, HiTable, ArTable, BnTable, JaTable);
  }

  /** No locale is listed twice in the selector. */
  lemma LanguageCodesDistinct()
    ensures forall i, j :: 0 <= i < j < |Languages| ==> Languages[i].code != Languages[j].code
  {
  }

  /** The base, default and right-to-left locales are all offered. */
  lemma SpecialLocalesOffered()
    ensures Languages[0].code == BaseLocale
    ensures Languages[8].code == DefaultLocale
    ensures Languages[5].code == RtlLocale
  {
  }
}
