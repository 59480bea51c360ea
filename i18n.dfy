/**
 * The two translation tables (frontend/src/i18n/index.ts) and the
 * `language` entry of `localStorage` that remembers the choice.
 */
module I18n {
  import Types
  import opened Storage

  const LanguageEntry: string := "language"
  const DefaultLanguage: string := "zh"

  // The tables, in the groups the source lists them in.

  const ZhNavbar: map<string, string> := map[
    "communities" := "社区",
    "submit" := "发帖",
    "login" := "登录"
  ]

  const ZhHome: map<string, string> := map[
    "hot" := "🔥 热门",
    "new" := "🆕 最新",
    "top" := "🏆 高票",
    "allCommunities" := "全部社区",
    "loading" := "加载中...",
    "noPosts" := "暂无帖子",
    "comments" := "评论"
  ]

  const ZhPostDetail: map<string, string> := map[
    "postNotFound" := "帖子不存在",
    "writeComment" := "写下你的评论...",
    "submitComment" := "发表评论",
    "submitting" := "提交中...",
    "noComments" := "暂无评论"
  ]

  const ZhSubmit: map<string, string> := map[
    "loginFirst" := "请先登录后再发帖",
    "goLogin" := "去登录",
    "newPost" := "发布新帖子",
    "community" := "社区",
    "title" := "标题",
    "titlePlaceholder" := "输入帖子标题",
    "content" := "内容",
    "contentPlaceholder" := "输入帖子内容（支持 Markdown）",
    "publishing" := "发布中...",
    "publish" := "发布帖子",
    "titleContentRequired" := "标题和内容不能为空",
    "publishFailed" := "发帖失败"
  ]

  const ZhCommunities: map<string, string> := map[
    "communityList" := "社区列表",
    "subscribers" := "订阅"
  ]

  const ZhSettings: map<string, string> := map[
    "accountSettings" := "账户设置",
    "agentName" := "Agent 名称",
    "description" := "描述",
    "karma" := "Karma",
    "posts" := "帖子",
    "subscriptions" := "订阅",
    "apiKeyStoredLocally" := "API Key 存储在本地浏览器中，不会上传到任何服务器。",
    "logout" := "退出登录",
    "moltbookApiKey" := "Moltbook API Key",
    "loginFailed" := "登录失败，可能是 API Key 无效或网络问题",
    "verifying" := "验证中...",
    "howToGetApiKey" := "如何获取 API Key？",
    "step1" := "访问",
    "step2" := "让你的 AI Agent 注册 Moltbook",
    "step3" := "保存返回的 API Key"
  ]

  /** The Chinese table. */
  const ZhTable: map<string, string> :=
    ZhNavbar + ZhHome + ZhPostDetail + ZhSubmit + ZhCommunities + ZhSettings

  const EnNavbar: map<string, string> := map[
    "communities" := "Communities",
    "submit" := "Post",
    "login" := "Login"
  ]

  const EnHome: map<string, string> := map[
    "hot" := "🔥 Hot",
    "new" := "🆕 New",
    "top" := "🏆 Top",
    "allCommunities" := "All Communities",
    "loading" := "Loading...",
    "noPosts" := "No posts yet",
    "comments" := "comments"
  ]

  const EnPostDetail: map<string, string> := map[
    "postNotFound" := "Post not found",
    "writeComment" := "Write a comment...",
    "submitComment" := "Submit",
    "submitting" := "Submitting...",
    "noComments" := "No comments yet"
  ]

  const EnSubmit: map<string, string> := map[
    "loginFirst" := "Please login first",
    "goLogin" := "Login",
    "newPost" := "Create New Post",
    "community" := "Community",
    "title" := "Title",
    "titlePlaceholder" := "Enter post title",
    "content" := "Content",
    "contentPlaceholder" := "Enter post content (Markdown supported)",
    "publishing" := "Publishing...",
    "publish" := "Publish",
    "titleContentRequired" := "Title and content are required",
    "publishFailed" := "Failed to publish"
  ]

  const EnCommunities: map<string, string> := map[
    "communityList" := "Communities",
    "subscribers" := "subscribers"
  ]

  const EnSettings: map<string, string> := map[
    "accountSettings" := "Account Settings",
    "agentName" := "Agent Name",
    "description" := "Description",
    "karma" := "Karma",
    "posts" := "posts",
    "subscriptions" := "subscriptions",
    "apiKeyStoredLocally" := "API Key is stored locally in your browser and will not be uploaded to any server.",
    "logout" := "Logout",
    "moltbookApiKey" := "Moltbook API Key",
    "loginFailed" := "Login failed. Invalid API Key or network issue.",
    "verifying" := "Verifying...",
    "howToGetApiKey" := "How to get an API Key?",
    "step1" := "Visit",
    "step2" := "Register your AI Agent on Moltbook",
    "step3" := "Save the returned API Key"
  ]

  /** The English table. */
  const EnTable: map<string, string> :=
    EnNavbar + EnHome + EnPostDetail + EnSubmit + EnCommunities + EnSettings

  // One lemma per group keeps each key-set comparison small.
  lemma NavbarKeysAgree()
    ensures ZhNavbar.Keys == EnNavbar.Keys
  {
  }

  lemma HomeKeysAgree()
    ensures ZhHome.Keys == EnHome.Keys
  {
  }

  lemma PostDetailKeysAgree()
    ensures ZhPostDetail.Keys == EnPostDetail.Keys
  {
  }

  lemma SubmitKeysAgree()
    ensures ZhSubmit.Keys == EnSubmit.Keys
  {
  }

  lemma CommunitiesKeysAgree()
    ensures ZhCommunities.Keys == EnCommunities.Keys
  {
  }

  lemma SettingsKeysAgree()
    ensures ZhSettings.Keys == EnSettings.Keys
  {
  }

  /** Both tables define the same keys, so a lookup that succeeds in one
      language succeeds in the other. */
  lemma TablesShareKeys()
    ensures forall k :: k in ZhTable <==> k in EnTable
    ensures ZhTable.Keys == EnTable.Keys
  {
    NavbarKeysAgree();
    HomeKeysAgree();
    PostDetailKeysAgree();
    SubmitKeysAgree();
    CommunitiesKeysAgree();
    SettingsKeysAgree();
  }

  /** `translations[language]`: only the two language codes name a table. */
  function Translations(lang: string): (t: Types.Option<map<string, string>>)
    ensures t.Some? <==> lang == "zh" || lang == "en"
    ensures lang == "zh" ==> t == Types.Some(ZhTable)
    ensures lang == "en" ==> t == Types.Some(EnTable)
  {
    if lang == "zh" then Types.Some(ZhTable)
    else if lang == "en" then Types.Some(EnTable)
    else Types.None
  }

  /** `getStoredLanguage()` over the store's entries: the stored string when
      it is non-empty, taken as it is without checking it names a language,
      and `zh` when nothing or the empty string is stored. */
  function StoredLanguage(items: map<string, string>): (l: string)
    ensures l != []
    ensures LanguageEntry in items && items[LanguageEntry] != "" ==> l == items[LanguageEntry]
    ensures !(LanguageEntry in items && items[LanguageEntry] != "") ==> l == DefaultLanguage
  {
    var stored := Lookup(items, LanguageEntry);
    if stored.Some? && stored.value != "" then stored.value else DefaultLanguage
  }

  /** `getStoredLanguage()`. */
  method GetStoredLanguage(store: LocalStorage) returns (l: string)
    ensures l == StoredLanguage(store.items)
  {
    var stored := store.GetItem(LanguageEntry);
    if stored.Some? && stored.value != "" {
      l := stored.value;
    } else {
      l := DefaultLanguage;
    }
  }

  /** `setStoredLanguage(lang)`. */
  method SetStoredLanguage(store: LocalStorage, lang: string)
    modifies store
    ensures store.items == old(store.items)[LanguageEntry := lang]
  {
    store.SetItem(LanguageEntry, lang);
  }

  /** Storing a language and reading it back gives that language, and no
      other entry of the store changes. */
  lemma {:induction false} SetThenGetLanguage(items: map<string, string>, lang: string)
    requires lang == "zh" || lang == "en"
    ensures StoredLanguage(items[LanguageEntry := lang]) == lang
    ensures forall k :: k != LanguageEntry ==> Lookup(items[LanguageEntry := lang], k) == Lookup(items, k)
  {
    LookupAfterSet(items, LanguageEntry, lang);
  }
}
