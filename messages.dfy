/** The English and Turkish translation tables, section by section, and
    `t(key)` in a given language. */
module Messages {
  import opened Language

  /** `t(key)` in the given language. */
  function Translate(lang: Lang, key: string): string {
    TranslateIn(Translations(lang), key)
  }

  /** The names of the sections every language's table has. */
  const SectionNames: set<string> := {
    "common",
    "auth",
    "menu",
    "dashboard",
    "categorySearch",
    "categories",
    "saved",
    "history",
    "about",
    "ideaDetail",
    "toast",
    "confirmModal"
  }

  /** The table of a language: each section name maps to that section. */
  function Translations(lang: Lang): Table {
    Node(map name | name in SectionNames :: Section(lang, name))
  }

  /** The section of the given name in the given language. */
  function Section(lang: Lang, name: string): Table
    requires name in SectionNames
  {
    if name == "common" then (match lang case En => EnCommon() case Tr => TrCommon())
    else
    if name == "auth" then (match lang case En => EnAuth() case Tr => TrAuth())
    else
    if name == "menu" then (match lang case En => EnMenu() case Tr => TrMenu())
    else
    if name == "dashboard" then (match lang case En => EnDashboard() case Tr => TrDashboard())
    else
    if name == "categorySearch" then (match lang case En => EnCategorySearch() case Tr => TrCategorySearch())
    else
    if name == "categories" then (match lang case En => EnCategories() case Tr => TrCategories())
    else
    if name == "saved" then (match lang case En => EnSaved() case Tr => TrSaved())
    else
    if name == "history" then (match lang case En => EnHistory() case Tr => TrHistory())
    else
    if name == "about" then (match lang case En => EnAbout() case Tr => TrAbout())
    else
    if name == "ideaDetail" then (match lang case En => EnIdeaDetail() case Tr => TrIdeaDetail())
    else
    if name == "toast" then (match lang case En => EnToast() case Tr => TrToast())
    else
    match lang case En => EnConfirmModal() case Tr => TrConfirmModal()
  }

  function EnCommon(): Table {
    Node(map[
      "back" := Leaf("Back"),
      "backToDashboard" := Leaf("Back to Dashboard"),
      "save" := Leaf("Save"),
      "cancel" := Leaf("Cancel"),
      "delete" := Leaf("Delete"),
      "loading" := Leaf("Loading..."),
      "search" := Leaf("Search"),
      "filter" := Leaf("Filter"),
      "all" := Leaf("All"),
      "create" := Leaf("Create"),
      "add" := Leaf("Add"),
      "close" := Leaf("Close"),
      "confirm" := Leaf("Confirm"),
      "edit" := Leaf("Edit"),
      "remove" := Leaf("Remove"),
      "export" := Leaf("Export")
    ])
  }

  function EnAuth(): Table {
    Node(map[
      "login" := Leaf("Login"),
      "signup" := Leaf("Sign up"),
      "logout" := Leaf("Log Out"),
      "email" := Leaf("Email"),
      "password" := Leaf("Password"),
      "confirmPassword" := Leaf("Confirm Password"),
      "enterEmail" := Leaf("Enter your email and password to access your account"),
      "enterInfo" := Leaf("Enter your information to get started"),
      "alreadyHaveAccount" := Leaf("Already have an account?"),
      "dontHaveAccount" := Leaf("Don't have an account?"),
      "createAccount" := Leaf("Create an account"),
      "loggingIn" := Leaf("Logging in..."),
      "creatingAccount" := Leaf("Creating account...")
    ])
  }

  function EnMenu(): Table {
    Node(map[
      "savedIdeas" := Leaf("Saved Ideas"),
      "pastSearches" := Leaf("Past Searches"),
      "about" := Leaf("About"),
      "language" := Leaf("Language")
    ])
  }

  function EnDashboard(): Table {
    Node(map[
      "title" := Leaf("What kind of app do you want to build?"),
      "subtitle" := Leaf("Describe your idea or select categories"),
      "searchPlaceholder" := Leaf("E.g., \"A fitness tracking app for beginners\""),
      "searchButton" := Leaf("Generate Ideas"),
      "or" := Leaf("or"),
      "searchByCategory" := Leaf("Search by Category"),
      "generatingIdeas" := Leaf("Generating Ideas..."),
      "generatingMessage" := Leaf("Our AI is crafting personalized app ideas just for you. This may take a few moments."),
      "savedCount" := Leaf("You saved {count} idea!"),
      "savedCountPlural" := Leaf("You saved {count} ideas!"),
      "noIdeasSaved" := Leaf("No ideas saved"),
      "viewSaved" := Leaf("View your saved ideas or start a new search"),
      "startNewSearch" := Leaf("Start a new search to discover more ideas"),
      "newSearch" := Leaf("New Search"),
      "viewAllSaved" := Leaf("View All Saved Ideas"),
      "reviewLater" := Leaf("Ideas to Review Later"),
      "reviewLaterNote" := Leaf("(Not saved - for this session only)"),
      "swipeHint" := Leaf("👆 Tap buttons or swipe left/right on the card"),
      "skip" := Leaf("Skip"),
      "reviewLaterBtn" := Leaf("Review Later"),
      "saveBtn" := Leaf("Save")
    ])
  }

  function EnCategorySearch(): Table {
    Node(map[
      "title" := Leaf("Category Search"),
      "selectPreferences" := Leaf("Select your preferences"),
      "subtitle" := Leaf("Choose at least one option from any category to get personalized app ideas"),
      "filterOptions" := Leaf("Filter Options"),
      "helperText" := Leaf("Select at least one option from any category below to generate ideas"),
      "selected" := Leaf("Selected"),
      "addCustom" := Leaf("Add Custom"),
      "additionalComments" := Leaf("Additional Comments"),
      "additionalCommentsPlaceholder" := Leaf("Add any specific requirements, features, or details you'd like to include..."),
      "additionalCommentsHelper" := Leaf("Provide additional context to refine your app ideas"),
      "generateIdeas" := Leaf("Generate Ideas"),
      "generatingIdeas" := Leaf("Generating Ideas...")
    ])
  }

  function EnCategories(): Table {
    Node(map[
      "technology" := Leaf("Technology/Platform"),
      "context" := Leaf("Context"),
      "monetization" := Leaf("Monetization"),
      "targetAudience" := Leaf("Target Audience")
    ])
  }

  function EnSaved(): Table {
    Node(map[
      "title" := Leaf("Saved Ideas"),
      "idea" := Leaf("idea"),
      "ideas" := Leaf("ideas"),
      "filtered" := Leaf("(filtered)"),
      "exportPDF" := Leaf("Export PDF"),
      "newFolder" := Leaf("New Folder"),
      "searchPlaceholder" := Leaf("Search saved ideas..."),
      "folders" := Leaf("Folders:"),
      "tags" := Leaf("Tags:"),
      "noIdeasFiltered" := Leaf("No ideas match your filters"),
      "noIdeasYet" := Leaf("No saved ideas yet"),
      "discoverIdeas" := Leaf("Discover Ideas"),
      "createNewFolder" := Leaf("Create New Folder"),
      "createNewFolderDesc" := Leaf("Organize your ideas into folders"),
      "folderName" := Leaf("Folder name"),
      "color" := Leaf("Color:"),
      "addToFolder" := Leaf("Add to Folder"),
      "addToFolderDesc" := Leaf("Select a folder to add this idea to"),
      "noFoldersYet" := Leaf("No folders yet. Create one first!"),
      "addTags" := Leaf("Add Tags"),
      "addTagsDesc" := Leaf("Create and add tags to organize your ideas"),
      "newTagName" := Leaf("New tag name"),
      "existingTags" := Leaf("Existing tags:"),
      "noTagsYet" := Leaf("No tags yet"),
      "removeFromSaved" := Leaf("Remove from saved")
    ])
  }

  function EnHistory(): Table {
    Node(map[
      "title" := Leaf("Search History"),
      "searchCount" := Leaf("{count} search in your history"),
      "searchCountPlural" := Leaf("{count} searches in your history"),
      "noHistory" := Leaf("No search history yet"),
      "startSearching" := Leaf("Start Searching"),
      "viewResults" := Leaf("View Results"),
      "more" := Leaf("more")
    ])
  }

  function EnAbout(): Table {
    Node(map[
      "title" := Leaf("About Ideator"),
      "subtitle" := Leaf("Your AI-powered companion for discovering and organizing creative project ideas"),
      "faq" := Leaf("Frequently Asked Questions"),
      "moreQuestions" := Leaf("Have more questions? Feel free to explore the app and discover all its features!")
    ])
  }

  function EnIdeaDetail(): Table {
    Node(map[
      "loading" := Leaf("Loading idea..."),
      "technology" := Leaf("Technology"),
      "complexity" := Leaf("Complexity"),
      "timeToBuild" := Leaf("Time to Build"),
      "monetization" := Leaf("Monetization"),
      "targetAudience" := Leaf("Target Audience"),
      "saveIdea" := Leaf("Save Idea"),
      "unsaveIdea" := Leaf("Unsave Idea"),
      "viewDetails" := Leaf("View Details"),
      "description" := Leaf("Description"),
      "implementationSteps" := Leaf("Implementation Steps"),
      "implementationStepsDesc" := Leaf("Follow these steps to build your app"),
      "techStack" := Leaf("Recommended Tech Stack"),
      "techStackDesc" := Leaf("Technologies and tools to use"),
      "suggestions" := Leaf("Additional Suggestions"),
      "suggestionsDesc" := Leaf("Tips and considerations for your project"),
      "shareText" := Leaf("Check out this app idea on Ideator!")
    ])
  }

  function EnToast(): Table {
    Node(map[
      "ideasGenerated" := Leaf("Ideas generated!"),
      "ideaSaved" := Leaf("Idea saved!"),
      "ideaSkipped" := Leaf("Idea skipped"),
      "savedForLater" := Leaf("Saved for later"),
      "undoSuccessful" := Leaf("Undo successful"),
      "customAdded" := Leaf("Added custom {category}: {value}"),
      "folderCreated" := Leaf("Folder created successfully"),
      "tagCreated" := Leaf("Tag created successfully"),
      "ideaUnsaved" := Leaf("Idea removed from saved"),
      "searchDeleted" := Leaf("Search deleted from history"),
      "loggedOut" := Leaf("Logged out successfully"),
      "loggedIn" := Leaf("Logged in successfully!"),
      "accountCreated" := Leaf("Account created! Please check your email to verify."),
      "passwordsNoMatch" := Leaf("Passwords do not match"),
      "passwordTooShort" := Leaf("Password must be at least 6 characters"),
      "failed" := Leaf("Failed to {action}. Please try again."),
      "copiedToClipboard" := Leaf("Copied to clipboard!"),
      "pdfExported" := Leaf("PDF exported successfully!")
    ])
  }

  function EnConfirmModal(): Table {
    Node(map[
      "title" := Leaf("Confirm Your Search"),
      "subtitle" := Leaf("Review your search criteria before generating ideas"),
      "searchSummary" := Leaf("Search Summary"),
      "searchQuery" := Leaf("Search Query"),
      "technology" := Leaf("Technology"),
      "category" := Leaf("Category"),
      "monetization" := Leaf("Monetization"),
      "targetAudience" := Leaf("Target Audience"),
      "additionalComments" := Leaf("Additional Comments"),
      "noCriteria" := Leaf("No search criteria provided"),
      "promptPreview" := Leaf("This information will be used to generate 10 personalized app ideas using AI."),
      "editSearch" := Leaf("Edit Search"),
      "confirmButton" := Leaf("Confirm & Generate Ideas")
    ])
  }

  function TrCommon(): Table {
    Node(map[
      "back" := Leaf("Geri"),
      "backToDashboard" := Leaf("Panoya Dön"),
      "save" := Leaf("Kaydet"),
      "cancel" := Leaf("İptal"),
      "delete" := Leaf("Sil"),
      "loading" := Leaf("Yükleniyor..."),
      "search" := Leaf("Ara"),
      "filter" := Leaf("Filtrele"),
      "all" := Leaf("Tümü"),
      "create" := Leaf("Oluştur"),
      "add" := Leaf("Ekle"),
      "close" := Leaf("Kapat"),
      "confirm" := Leaf("Onayla"),
      "edit" := Leaf("Düzenle"),
      "remove" := Leaf("Kaldır"),
      "export" := Leaf("Dışa Aktar")
    ])
  }

  function TrAuth(): Table {
    Node(map[
      "login" := Leaf("Giriş Yap"),
      "signup" := Leaf("Kayıt Ol"),
      "logout" := Leaf("Çıkış Yap"),
      "email" := Leaf("E-posta"),
      "password" := Leaf("Şifre"),
      "confirmPassword" := Leaf("Şifreyi Onayla"),
      "enterEmail" := Leaf("Hesabınıza erişmek için e-posta ve şifrenizi girin"),
      "enterInfo" := Leaf("Başlamak için bilgilerinizi girin"),
      "alreadyHaveAccount" := Leaf("Zaten hesabınız var mı?"),
      "dontHaveAccount" := Leaf("Hesabınız yok mu?"),
      "createAccount" := Leaf("Hesap oluştur"),
      "loggingIn" := Leaf("Giriş yapılıyor..."),
      "creatingAccount" := Leaf("Hesap oluşturuluyor...")
    ])
  }

  function TrMenu(): Table {
    Node(map[
      "savedIdeas" := Leaf("Kaydedilen Fikirler"),
      "pastSearches" := Leaf("Geçmiş Aramalar"),
      "about" := Leaf("Hakkında"),
      "language" := Leaf("Dil")
    ])
  }

  function TrDashboard(): Table {
    Node(map[
      "title" := Leaf("Ne tür bir uygulama yapmak istiyorsunuz?"),
      "subtitle" := Leaf("Fikrinizi tanımlayın veya kategorileri seçin"),
      "searchPlaceholder" := Leaf("Örn: \"Yeni başlayanlar için fitness takip uygulaması\""),
      "searchButton" := Leaf("Fikir Üret"),
      "or" := Leaf("veya"),
      "searchByCategory" := Leaf("Kategoriye Göre Ara"),
      "generatingIdeas" := Leaf("Fikirler Üretiliyor..."),
      "generatingMessage" := Leaf("Yapay zekamız sizin için özelleştirilmiş uygulama fikirleri hazırlıyor. Bu birkaç dakika sürebilir."),
      "savedCount" := Leaf("{count} fikir kaydettiniz!"),
      "savedCountPlural" := Leaf("{count} fikir kaydettiniz!"),
      "noIdeasSaved" := Leaf("Kaydedilen fikir yok"),
      "viewSaved" := Leaf("Kaydedilen fikirlerinizi görüntüleyin veya yeni arama yapın"),
      "startNewSearch" := Leaf("Daha fazla fikir keşfetmek için yeni bir arama başlatın"),
      "newSearch" := Leaf("Yeni Arama"),
      "viewAllSaved" := Leaf("Tüm Kayıtlı Fikirleri Gör"),
      "reviewLater" := Leaf("Daha Sonra İncelenecek Fikirler"),
      "reviewLaterNote" := Leaf("(Kaydedilmedi - sadece bu oturum için)"),
      "swipeHint" := Leaf("👆 Düğmelere dokunun veya kartı sola/sağa kaydırın"),
      "skip" := Leaf("Geç"),
      "reviewLaterBtn" := Leaf("Sonra İncele"),
      "saveBtn" := Leaf("Kaydet")
    ])
  }

  function TrCategorySearch(): Table {
    Node(map[
      "title" := Leaf("Kategori Araması"),
      "selectPreferences" := Leaf("Tercihlerinizi seçin"),
      "subtitle" := Leaf("Kişiselleştirilmiş uygulama fikirleri almak için herhangi bir kategoriden en az bir seçenek seçin"),
      "filterOptions" := Leaf("Filtre Seçenekleri"),
      "helperText" := Leaf("Fikir üretmek için aşağıdaki kategorilerden en az birinden seçim yapın"),
      "selected" := Leaf("Seçildi"),
      "addCustom" := Leaf("Özel Ekle"),
      "additionalComments" := Leaf("Ek Yorumlar"),
      "additionalCommentsPlaceholder" := Leaf("Eklemek istediğiniz belirli gereksinimler, özellikler veya detaylar..."),
      "additionalCommentsHelper" := Leaf("Uygulama fikirlerinizi iyileştirmek için ek bağlam sağlayın"),
      "generateIdeas" := Leaf("Fikir Üret"),
      "generatingIdeas" := Leaf("Fikirler Üretiliyor...")
    ])
  }

  function TrCategories(): Table {
    Node(map[
      "technology" := Leaf("Teknoloji/Platform"),
      "context" := Leaf("Bağlam"),
      "monetization" := Leaf("Gelir Modeli"),
      "targetAudience" := Leaf("Hedef Kitle")
    ])
  }

  function TrSaved(): Table {
    Node(map[
      "title" := Leaf("Kaydedilen Fikirler"),
      "idea" := Leaf("fikir"),
      "ideas" := Leaf("fikir"),
      "filtered" := Leaf("(filtrelenmiş)"),
      "exportPDF" := Leaf("PDF Olarak Dışa Aktar"),
      "newFolder" := Leaf("Yeni Klasör"),
      "searchPlaceholder" := Leaf("Kaydedilen fikirlerde ara..."),
      "folders" := Leaf("Klasörler:"),
      "tags" := Leaf("Etiketler:"),
      "noIdeasFiltered" := Leaf("Hiçbir fikir filtrelerinizle eşleşmiyor"),
      "noIdeasYet" := Leaf("Henüz kaydedilen fikir yok"),
      "discoverIdeas" := Leaf("Fikir Keşfet"),
      "createNewFolder" := Leaf("Yeni Klasör Oluştur"),
      "createNewFolderDesc" := Leaf("Fikirlerinizi klasörlere ayırın"),
      "folderName" := Leaf("Klasör adı"),
      "color" := Leaf("Renk:"),
      "addToFolder" := Leaf("Klasöre Ekle"),
      "addToFolderDesc" := Leaf("Bu fikri eklemek için bir klasör seçin"),
      "noFoldersYet" := Leaf("Henüz klasör yok. Önce bir tane oluşturun!"),
      "addTags" := Leaf("Etiket Ekle"),
      "addTagsDesc" := Leaf("Fikirlerinizi düzenlemek için etiketler oluşturun ve ekleyin"),
      "newTagName" := Leaf("Yeni etiket adı"),
      "existingTags" := Leaf("Mevcut etiketler:"),
      "noTagsYet" := Leaf("Henüz etiket yok"),
      "removeFromSaved" := Leaf("Kayıtlılardan kaldır")
    ])
  }

  function TrHistory(): Table {
    Node(map[
      "title" := Leaf("Arama Geçmişi"),
      "searchCount" := Leaf("Geçmişinizde {count} arama"),
      "searchCountPlural" := Leaf("Geçmişinizde {count} arama"),
      "noHistory" := Leaf("Henüz arama geçmişi yok"),
      "startSearching" := Leaf("Aramaya Başla"),
      "viewResults" := Leaf("Sonuçları Görüntüle"),
      "more" := Leaf("daha fazla")
    ])
  }

  function TrAbout(): Table {
    Node(map[
      "title" := Leaf("Ideator Hakkında"),
      "subtitle" := Leaf("Yaratıcı proje fikirlerini keşfetmek ve düzenlemek için yapay zeka destekli yardımcınız"),
      "faq" := Leaf("Sıkça Sorulan Sorular"),
      "moreQuestions" := Leaf("Daha fazla sorunuz mu var? Uygulamayı keşfetmekten ve tüm özelliklerini keşfetmekten çekinmeyin!")
    ])
  }

  function TrIdeaDetail(): Table {
    Node(map[
      "loading" := Leaf("Fikir yükleniyor..."),
      "technology" := Leaf("Teknoloji"),
      "complexity" := Leaf("Karmaşıklık"),
      "timeToBuild" := Leaf("Geliştirme Süresi"),
      "monetization" := Leaf("Gelir Modeli"),
      "targetAudience" := Leaf("Hedef Kitle"),
      "saveIdea" := Leaf("Fikri Kaydet"),
      "unsaveIdea" := Leaf("Kaydı Kaldır"),
      "viewDetails" := Leaf("Detayları Gör"),
      "description" := Leaf("Açıklama"),
      "implementationSteps" := Leaf("Uygulama Adımları"),
      "implementationStepsDesc" := Leaf("Uygulamanızı oluşturmak için bu adımları izleyin"),
      "techStack" := Leaf("Önerilen Teknoloji Yığını"),
      "techStackDesc" := Leaf("Kullanılacak teknolojiler ve araçlar"),
      "suggestions" := Leaf("Ek Öneriler"),
      "suggestionsDesc" := Leaf("Projeniz için ipuçları ve dikkat edilmesi gerekenler"),
      "shareText" := Leaf("Ideator'da bu uygulama fikrine göz atın!")
    ])
  }

  function TrToast(): Table {
    Node(map[
      "ideasGenerated" := Leaf("Fikirler üretildi!"),
      "ideaSaved" := Leaf("Fikir kaydedildi!"),
      "ideaSkipped" := Leaf("Fikir atlandı"),
      "savedForLater" := Leaf("Daha sonra için kaydedildi"),
      "undoSuccessful" := Leaf("Geri alma başarılı"),
      "customAdded" := Leaf("Özel {category} eklendi: {value}"),
      "folderCreated" := Leaf("Klasör başarıyla oluşturuldu"),
      "tagCreated" := Leaf("Etiket başarıyla oluşturuldu"),
      "ideaUnsaved" := Leaf("Fikir kayıtlılardan kaldırıldı"),
      "searchDeleted" := Leaf("Arama geçmişten silindi"),
      "loggedOut" := Leaf("Başarıyla çıkış yapıldı"),
      "loggedIn" := Leaf("Başarıyla giriş yapıldı!"),
      "accountCreated" := Leaf("Hesap oluşturuldu! Lütfen doğrulamak için e-postanızı kontrol edin."),
      "passwordsNoMatch" := Leaf("Şifreler eşleşmiyor"),
      "passwordTooShort" := Leaf("Şifre en az 6 karakter olmalıdır"),
      "failed" := Leaf("{action} başarısız oldu. Lütfen tekrar deneyin."),
      "copiedToClipboard" := Leaf("Panoya kopyalandı!"),
      "pdfExported" := Leaf("PDF başarıyla dışa aktarıldı!")
    ])
  }

  function TrConfirmModal(): Table {
    Node(map[
      "title" := Leaf("Aramanızı Onaylayın"),
      "subtitle" := Leaf("Fikir üretmeden önce arama kriterlerinizi gözden geçirin"),
      "searchSummary" := Leaf("Arama Özeti"),
      "searchQuery" := Leaf("Arama Sorgusu"),
      "technology" := Leaf("Teknoloji"),
      "category" := Leaf("Kategori"),
      "monetization" := Leaf("Gelir Modeli"),
      "targetAudience" := Leaf("Hedef Kitle"),
      "additionalComments" := Leaf("Ek Yorumlar"),
      "noCriteria" := Leaf("Arama kriteri sağlanmadı"),
      "promptPreview" := Leaf("Bu bilgiler yapay zeka kullanılarak 10 kişiselleştirilmiş uygulama fikri üretmek için kullanılacak."),
      "editSearch" := Leaf("Aramayı Düzenle"),
      "confirmButton" := Leaf("Onayla ve Fikir Üret")
    ])
  }
}
