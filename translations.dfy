/** The user-facing text tables of translations.py:5-268 and the lookup `get_text`
    (translations.py:270-293). Each table is a dictionary lookup: the text a key maps to, or
    `None` for a key the table does not hold. The key "Update Curves" is written twice in each
    Python dictionary with the same text; it is one entry here. */
module Translations {
  import opened Wrappers

  /** The two tables of `TRANSLATIONS`. */
  datatype Language = English | TraditionalChinese

  /** The names `TRANSLATIONS` keys its tables by. */
  const ENGLISH: string := "English"
  const TRADITIONAL_CHINESE: string := "繁體中文"

  /** `TRANSLATIONS["English"].get(key)` (translations.py:6-136). */
  function EnglishText(key: string): Option<string> {
    match key
    case "Hung Pump" => Some("Hung Pump")
    case "Pump Selection Tool" => Some("Pump Selection Tool")
    case "Data loaded" => Some("Data loaded: {n_records} records | Last update: {timestamp}")
    case "Refresh Data" => Some("🔄 Refresh Data")
    case "Reset Inputs" => Some("🔄 Reset Inputs")
    case "Search" => Some("🔍 Search")
    case "Show Curve" => Some("📈 Show Pump Curve")
    case "Update Curves" => Some("📈 Update Curves")
    case "Step 1" => Some("### 🔧 Step 1: Select Basic Criteria")
    case "Category" => Some("* Category:")
    case "Frequency" => Some("* Frequency (Hz):")
    case "Phase" => Some("* Phase:")
    case "Select..." => Some("Select...")
    case "All Categories" => Some("All Categories")
    case "Show All Frequency" => Some("Show All Frequency")
    case "Show All Phase" => Some("Show All Phase")
    case "Column Selection" => Some("📋 Column Selection")
    case "Select Columns" => Some("Select columns to display in results:")
    case "Select All" => Some("Select All")
    case "Deselect All" => Some("Deselect All")
    case "Essential Columns" => Some("Essential Columns (always shown)")
    case "Dirty Water" => Some("Dirty Water")
    case "Clean Water" => Some("Clean Water")
    case "Speciality Pump" => Some("Speciality Pump")
    case "Grinder" => Some("Grinder")
    case "Construction" => Some("Construction")
    case "Sewage and Wastewater" => Some("Sewage and Wastewater")
    case "High Pressure" => Some("High Pressure")
    case "Booster" => Some("Booster")
    case "BLDC" => Some("BLDC")
    case "Application Input" => Some("### 🏢 Application Input")
    case "Floor Faucet Info" => Some("💡 Each floor = 3.5 m TDH | Each faucet = 15 LPM")
    case "Number of Floors" => Some("Number of Floors")
    case "Number of Faucets" => Some("Number of Faucets")
    case "Pond Drainage" => Some("### 🌊 Pond Drainage")
    case "Pond Length" => Some("Pond Length (m)")
    case "Pond Width" => Some("Pond Width (m)")
    case "Pond Height" => Some("Pond Height (m)")
    case "Drain Time" => Some("Drain Time (hours)")
    case "Pond Volume" => Some("📏 Pond Volume: {volume} L")
    case "Required Flow" => Some("💧 Required Flow to drain pond: {flow} LPM")
    case "Pump Depth" => Some("Pump Depth Below Ground (m)")
    case "Particle Size" => Some("Max Particle Size (mm)")
    case "Manual Input" => Some("### Manual Input")
    case "Flow Unit" => Some("Flow Unit")
    case "Flow Value" => Some("Flow Value")
    case "Head Unit" => Some("Head Unit")
    case "TDH" => Some("Total Dynamic Head (TDH)")
    case "Estimated Application" => Some("### 💡 Estimated Application (based on Manual Input)")
    case "Estimated Floors" => Some("Estimated Floors")
    case "Estimated Faucets" => Some("Estimated Faucets")
    case "Result Display" => Some("### 📊 Result Display Control")
    case "Show Percentage" => Some("Show Top Percentage of Results")
    case "Matching Pumps" => Some("✅ Matching Pumps")
    case "Found Pumps" => Some("Found {count} matching pumps")
    case "Matching Results" => Some("### Matching Pumps Results")
    case "Showing Results" => Some("Showing all {count} results")
    case "View Product" => Some("View Product")
    case "Select Pumps" => Some("Select pumps from the table below to view their performance curves")
    case "Pump Curves" => Some("### 📈 Pump Performance Curves")
    case "Select Pump" => Some("Select a pump to view its performance curve:")
    case "No Curve Data" => Some("No curve data available for this pump model")
    case "Curve Data Loaded" => Some("Curve data loaded: {count} pumps with curve data")
    case "Performance Curve" => Some("Performance Curve - {model}")
    case "Flow Rate" => Some("Flow Rate (LPM)")
    case "Head" => Some("Head (M)")
    case "Operating Point" => Some("Your Operating Point")
    case "Efficiency Curve" => Some("Efficiency Curve - {model}")
    case "Efficiency" => Some("Efficiency (%)")
    case "Power Curve" => Some("Power Curve - {model}")
    case "Power" => Some("Power (kW)")
    case "Multiple Curves" => Some("Performance Comparison")
    case "Compare Pumps" => Some("Compare Selected Pumps")
    case "Select Multiple" => Some("Select multiple pumps to compare:")
    case "Select Pumps for Curves" => Some("Select pumps to display their performance curves:")
    case "Charts Update Info" => Some("👆 Please select one or more pumps above and click 'Update Curves' to view their performance curves")
    case "Loading Curve" => Some("Loading curve data...")
    case "Loading Comparison" => Some("Loading comparison chart...")
    case "Selected Pumps" => Some("Selected {count} pump(s) for curve visualization")
    case "Q Rated/LPM" => Some("Q Rated/LPM")
    case "Rated flow rate in liters per minute" => Some("Rated flow rate in liters per minute")
    case "Head Rated/M" => Some("Head Rated/M")
    case "Rated head in meters" => Some("Rated head in meters")
    case "L/min" => Some("L/min")
    case "L/sec" => Some("L/sec")
    case "m³/hr" => Some("m³/hr")
    case "m³/min" => Some("m³/min")
    case "US gpm" => Some("US gpm")
    case "m" => Some("m")
    case "ft" => Some("ft")
    case "Select Warning" => Some("Please select Frequency and Phase to proceed.")
    case "No Matches" => Some("⚠️ No pumps match your criteria. Try adjusting the parameters.")
    case "Failed Connection" => Some("❌ Failed to connect to Supabase: {error}")
    case "Failed Data" => Some("❌ Failed to load data from Supabase: {error}")
    case "Failed CSV" => Some("❌ Failed to load CSV file: {error}")
    case "No Data" => Some("❌ No pump data available. Please check your Supabase connection or CSV file.")
    case "Failed Curve Data" => Some("❌ Failed to load curve data: {error}")
    case _ => None
  }

  /** `TRANSLATIONS["繁體中文"].get(key)` (translations.py:137-267). */
  function ChineseText(key: string): Option<string> {
    match key
    case "Hung Pump" => Some("宏泵集團")
    case "Pump Selection Tool" => Some("水泵選型工具")
    case "Data loaded" => Some("已載入資料: {n_records} 筆記錄 | 最後更新: {timestamp}")
    case "Refresh Data" => Some("🔄 刷新資料")
    case "Reset Inputs" => Some("🔄 重置輸入")
    case "Search" => Some("🔍 搜尋")
    case "Show Curve" => Some("📈 顯示泵浦曲線")
    case "Update Curves" => Some("📈 更新曲線")
    case "Step 1" => Some("### 🔧 步驟一: 選擇基本條件")
    case "Category" => Some("* 類別:")
    case "Frequency" => Some("* 頻率 (赫茲):")
    case "Phase" => Some("* 相數:")
    case "Select..." => Some("請選擇...")
    case "All Categories" => Some("所有類別")
    case "Show All Frequency" => Some("顯示所有頻率")
    case "Show All Phase" => Some("顯示所有相數")
    case "Column Selection" => Some("📋 欄位選擇")
    case "Select Columns" => Some("選擇要在結果中顯示的欄位:")
    case "Select All" => Some("全選")
    case "Deselect All" => Some("全部取消")
    case "Essential Columns" => Some("必要欄位 (總是顯示)")
    case "Dirty Water" => Some("污水泵")
    case "Clean Water" => Some("清水泵")
    case "Speciality Pump" => Some("特殊用途泵")
    case "Grinder" => Some("研磨泵")
    case "Construction" => Some("工業泵")
    case "Sewage and Wastewater" => Some("污水和廢水泵")
    case "High Pressure" => Some("高壓泵")
    case "Booster" => Some("加壓泵")
    case "BLDC" => Some("無刷直流泵")
    case "Application Input" => Some("### 🏢 應用輸入")
    case "Floor Faucet Info" => Some("💡 每樓層 = 3.5 米揚程 | 每水龍頭 = 15 LPM")
    case "Number of Floors" => Some("樓層數量")
    case "Number of Faucets" => Some("水龍頭數量")
    case "Pond Drainage" => Some("### 🌊 池塘排水")
    case "Pond Length" => Some("池塘長度 (米)")
    case "Pond Width" => Some("池塘寬度 (米)")
    case "Pond Height" => Some("池塘高度 (米)")
    case "Drain Time" => Some("排水時間 (小時)")
    case "Pond Volume" => Some("📏 池塘體積: {volume} 升")
    case "Required Flow" => Some("💧 所需排水流量: {flow} LPM")
    case "Pump Depth" => Some("幫浦地下深度 (米)")
    case "Particle Size" => Some("最大固體顆粒尺寸 (毫米)")
    case "Manual Input" => Some("### 手動輸入")
    case "Flow Unit" => Some("流量單位")
    case "Flow Value" => Some("流量值")
    case "Head Unit" => Some("揚程單位")
    case "TDH" => Some("總動態揚程 (TDH)")
    case "Estimated Application" => Some("### 💡 估計應用 (基於手動輸入)")
    case "Estimated Floors" => Some("估計樓層")
    case "Estimated Faucets" => Some("估計水龍頭")
    case "Result Display" => Some("### 📊 結果顯示控制")
    case "Show Percentage" => Some("顯示前百分比的結果")
    case "Matching Pumps" => Some("✅ 符合條件的幫浦")
    case "Found Pumps" => Some("找到 {count} 個符合的幫浦")
    case "Matching Results" => Some("### 符合幫浦結果")
    case "Showing Results" => Some("顯示全部 {count} 筆結果")
    case "View Product" => Some("查看產品")
    case "Select Pumps" => Some("從下表選擇幫浦以查看其性能曲線")
    case "Pump Curves" => Some("### 📈 幫浦性能曲線")
    case "Select Pump" => Some("選擇幫浦以查看其性能曲線:")
    case "No Curve Data" => Some("此幫浦型號無曲線資料")
    case "Curve Data Loaded" => Some("曲線資料已載入: {count} 個幫浦有曲線資料")
    case "Performance Curve" => Some("性能曲線 - {model}")
    case "Flow Rate" => Some("流量 (LPM)")
    case "Head" => Some("揚程 (M)")
    case "Operating Point" => Some("您的操作點")
    case "Efficiency Curve" => Some("效率曲線 - {model}")
    case "Efficiency" => Some("效率 (%)")
    case "Power Curve" => Some("功率曲線 - {model}")
    case "Power" => Some("功率 (kW)")
    case "Multiple Curves" => Some("性能比較")
    case "Compare Pumps" => Some("比較選定的幫浦")
    case "Select Multiple" => Some("選擇多個幫浦進行比較:")
    case "Select Pumps for Curves" => Some("選擇幫浦以顯示其性能曲線:")
    case "Charts Update Info" => Some("👆 請在上方選擇一個或多個幫浦並點擊「更新曲線」以查看其性能曲線")
    case "Loading Curve" => Some("載入曲線資料中...")
    case "Loading Comparison" => Some("載入比較圖表中...")
    case "Selected Pumps" => Some("已選擇 {count} 個幫浦進行曲線視覺化")
    case "Q Rated/LPM" => Some("額定流量 (LPM)")
    case "Rated flow rate in liters per minute" => Some("每分鐘額定流量（公升）")
    case "Head Rated/M" => Some("額定揚程 (M)")
    case "Rated head in meters" => Some("額定揚程（米）")
    case "L/min" => Some("公升/分鐘")
    case "L/sec" => Some("公升/秒")
    case "m³/hr" => Some("立方米/小時")
    case "m³/min" => Some("立方米/分鐘")
    case "US gpm" => Some("美制加侖/分鐘")
    case "m" => Some("米")
    case "ft" => Some("英尺")
    case "Select Warning" => Some("請選擇頻率和相數以繼續。")
    case "No Matches" => Some("⚠️ 沒有符合您條件的幫浦。請調整參數。")
    case "Failed Connection" => Some("❌ 連接到 Supabase 失敗: {error}")
    case "Failed Data" => Some("❌ 從 Supabase 載入資料失敗: {error}")
    case "Failed CSV" => Some("❌ 載入 CSV 檔案失敗: {error}")
    case "No Data" => Some("❌ 無可用幫浦資料。請檢查您的 Supabase 連接或 CSV 檔案。")
    case "Failed Curve Data" => Some("❌ 載入曲線資料失敗: {error}")
    case _ => None
  }

  /** `TRANSLATIONS[language].get(key)`. */
  function Lookup(language: Language, key: string): Option<string> {
    match language
    case English => EnglishText(key)
    case TraditionalChinese => ChineseText(key)
  }

  /** The table `get_text` reads for the session's language: English when the session holds no
      language (translations.py:284) or a name without a table (translations.py:287). */
  function TableFor(session: Option<string>): (language: Language)
    ensures session == Some(TRADITIONAL_CHINESE) <==> language == TraditionalChinese
  {
    var name := session.GetOr(ENGLISH);
    if name == TRADITIONAL_CHINESE then TraditionalChinese else English
  }

  /** `get_text(key)` with no format arguments: the key's text in the session language's table,
      or the key itself when that table has no entry for it (translations.py:290). */
  function GetText(session: Option<string>, key: string): string {
    Lookup(TableFor(session), key).GetOr(key)
  }

  /** `get_text(key, **args)`: with no arguments the looked-up text itself, otherwise that text
      given to `format` (Python's `str.format`, which this model leaves uninterpreted). */
  function GetTextWith(session: Option<string>, key: string, args: map<string, string>,
                       format: (string, map<string, string>) -> string): (text: string)
    ensures args == map[] ==> text == GetText(session, key)
    ensures args != map[] ==> text == format(GetText(session, key), args)
  {
    var text := GetText(session, key);
    if args != map[] then format(text, args) else text
  }

  /** A session without a language reads the English table, and so does a session whose language
      has no table. */
  lemma LanguageFallback(session: Option<string>, key: string)
    ensures session.None? ==> GetText(session, key) == EnglishText(key).GetOr(key)
    ensures session.Some? && session.value != ENGLISH && session.value != TRADITIONAL_CHINESE ==>
              GetText(session, key) == GetText(Some(ENGLISH), key)
  {
  }

  /** A key neither table holds is shown as itself in every language. */
  lemma UnknownKeyIsItself(session: Option<string>, key: string)
    requires EnglishText(key).None? && ChineseText(key).None?
    ensures GetText(session, key) == key
  {
  }

  /** The catalogue categories the tables translate (translations.py:37-45 and 168-176). */
  const CATEGORY_KEYS: seq<string> := [
    "Dirty Water", "Clean Water", "Speciality Pump", "Grinder", "Construction", "Sewage and Wastewater", "High Pressure", "Booster", "BLDC"
  ]

  /** The key of the first dropdown entry. */
  const ALL_CATEGORIES: string := "All Categories"

  /** The text a table gives a listed category, or the category itself when it has none. */
  function CategoryText(language: Language, k: nat): string
    requires k < |CATEGORY_KEYS|
  {
    Lookup(language, CATEGORY_KEYS[k]).GetOr(CATEGORY_KEYS[k])
  }

  /** The Chinese category texts (translations.py:168-176), in the order of `CATEGORY_KEYS`. */
  const CHINESE_CATEGORY_TEXTS: seq<string> := [
    "污水泵", "清水泵", "特殊用途泵", "研磨泵", "工業泵", "污水和廢水泵", "高壓泵", "加壓泵", "無刷直流泵"
  ]

  /** The English table names each listed category by its own key. */
  lemma EnglishCategoryTexts()
    ensures forall k :: 0 <= k < |CATEGORY_KEYS| ==> CategoryText(English, k) == CATEGORY_KEYS[k]
  {
  }

  lemma ChineseCategoryTexts()
    ensures forall k :: 0 <= k < |CATEGORY_KEYS| ==> CategoryText(TraditionalChinese, k) == CHINESE_CATEGORY_TEXTS[k]
  {
  }

  lemma EnglishCategoryTextsDistinct()
    ensures forall i, j :: 0 <= i < j < |CATEGORY_KEYS| ==> CategoryText(English, i) != CategoryText(English, j)
    ensures forall k :: 0 <= k < |CATEGORY_KEYS| ==> CategoryText(English, k) != EnglishText(ALL_CATEGORIES).GetOr(ALL_CATEGORIES)
  {
    EnglishCategoryTexts();
    assert forall i, j :: 0 <= i < j < |CATEGORY_KEYS| ==> CATEGORY_KEYS[i] != CATEGORY_KEYS[j];
  }

  lemma ChineseCategoryTextsDistinct()
    ensures forall i, j :: 0 <= i < j < |CATEGORY_KEYS| ==> CategoryText(TraditionalChinese, i) != CategoryText(TraditionalChinese, j)
    ensures forall k :: 0 <= k < |CATEGORY_KEYS| ==> CategoryText(TraditionalChinese, k) != ChineseText(ALL_CATEGORIES).GetOr(ALL_CATEGORIES)
  {
    ChineseCategoryTexts();
    assert forall i, j :: 0 <= i < j < |CHINESE_CATEGORY_TEXTS| ==> CHINESE_CATEGORY_TEXTS[i] != CHINESE_CATEGORY_TEXTS[j];
  }

  /** Whatever the session language, the listed categories get pairwise different texts, none of
      them the text of the "All Categories" entry. */
  lemma CategoryTextsDistinct(session: Option<string>)
    ensures forall i, j :: 0 <= i < j < |CATEGORY_KEYS| ==>
              GetText(session, CATEGORY_KEYS[i]) != GetText(session, CATEGORY_KEYS[j])
    ensures forall k :: 0 <= k < |CATEGORY_KEYS| ==>
              GetText(session, CATEGORY_KEYS[k]) != GetText(session, ALL_CATEGORIES)
  {
    EnglishCategoryTextsDistinct();
    ChineseCategoryTextsDistinct();
    assert forall k :: 0 <= k < |CATEGORY_KEYS| ==> GetText(session, CATEGORY_KEYS[k]) == CategoryText(TableFor(session), k);
  }
}
