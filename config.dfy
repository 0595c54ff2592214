/** The constant style tables of the bot's configuration. */
module Config {

  /** `STYLE_DESCRIPTIONS`: what each style asks of the generated usernames. */
  const StyleDescriptions: map<string, string> := map[
    "epic" := "мощные, звучные, внушительные username, которые вызывают ощущение силы и значимости",
    "strict" := "строгие, лаконичные, солидные username, которые выглядят профессионально",
    "funky" := "игривые, необычные, креативные username с элементами юмора",
    "minimal" := "простые, элегантные, короткие username, которые выглядят стильно",
    "cringe" := "абсурдные, нелепые, запоминающиеся username, которые могут выглядеть смешно или странно"
  ]

  /** `STYLE_TRANSLATIONS`: the Russian name of each style. */
  const StyleTranslations: map<string, string> := map[
    "epic" := "эпичный",
    "strict" := "строгий",
    "funky" := "фанк",
    "minimal" := "минимализм",
    "cringe" := "кринж"
  ]
}
