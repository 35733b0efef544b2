/**
 * The static tables the screens render: the eight worker languages, the
 * built-in slang glossary (site jargon, its standard Korean term and eight
 * translations) and the list of construction sites. The shape invariants
 * the screens rely on (keys used as React keys are unique, no empty
 * fields) are proved about the tables as written.
 */
module Constants {

  datatype Language = Language(code: string, name: string, koLabel: string, flag: string)

  /** One glossary row: the jargon, its standard term, and its rendering in each worker language. */
  datatype SlangItem = SlangItem(
    slang: string, standard: string,
    vi: string, uz: string, en: string, km: string,
    mn: string, zh: string, th: string, ru: string)

  datatype Site = Site(id: nat, name: string, region: string, active: bool)

  const Languages: seq<Language> := [
    Language("vi-VN", "Vietnam", "베트남", "🇻🇳"),
    Language("uz-UZ", "Uzbek", "우즈벡", "🇺🇿"),
    Language("km-KH", "Cambodia", "캄보디아", "🇰🇭"),
    Language("mn-MN", "Mongolia", "몽골어", "🇲🇳"),
    Language("en-US", "English", "영어", "🇺🇸"),
    Language("zh-CN", "Chinese", "중국어", "🇨🇳"),
    Language("th-TH", "Thai", "태국어", "🇹🇭"),
    Language("ru-RU", "Russian", "러시아어", "🇷🇺")
  ]

  /**
   * The built-in glossary, in source order. It is written as nine blocks of
   * eight rows (the last holds five) joined in order, so that facts about
   * the table can be established block by block.
   */
  const NogadaSlang: seq<SlangItem> :=
    SlangBlock0 + SlangBlock1 + SlangBlock2 + SlangBlock3 + SlangBlock4 + SlangBlock5 + SlangBlock6 + SlangBlock7 + SlangBlock8

  const SlangBlock0: seq<SlangItem> := [
    SlangItem("가꾸", "틀 (Frame)", "Khung", "Ramka", "Frame", "ស៊ុម", "Хүрээ", "框架", "กรอบ", "Рама"),
    SlangItem("가꾸목", "각목 (Square timber)", "Gỗ vuông", "Kvadrat yog'och", "Square timber", "ឈើការេ", "Дөрвөлжин мод", "方木", "ไม้เหลี่ยม", "Брус"),
    SlangItem("가네", "직각 (Right angle)", "Góc vuông", "To'g'ri burchak", "Right angle", "មុំកែង", "Тэгш өнцөг", "直角", "มุมฉาก", "Прямой угол"),
    SlangItem("가다", "거푸집 (Form/Mold)", "Ván khuôn", "Qolip", "Formwork", "ទម្រង់", "Хэвлэгч", "模板", "แบบหล่อ", "Опалубка"),
    SlangItem("가베", "벽 (Wall)", "Tường", "Devor", "Wall", "ជញ្ជាំង", "Хана", "墙", "ผนัง", "Стена"),
    SlangItem("곰방", "운반 (Transport)", "Vận chuyển", "Tashish", "Transport", "ដឹកជញ្ជូន", "Тээвэрлэлт", "运输", "ขนส่ง", "Транспортировка"),
    SlangItem("공구리", "콘크리트 (Concrete)", "Bê tông", "Beton", "Concrete", "បេតុង", "Бетон", "混凝土", "คอนกรีต", "Бетон"),
    SlangItem("구배", "경사 (Slope)", "Độ dốc", "Nishablik", "Slope", "ជម្រាល", "Налуу", "坡度", "ความลาดชัน", "Уклон")
  ]

  const SlangBlock1: seq<SlangItem> := [
    SlangItem("기리", "절단 (Cutting)", "Cắt", "Kesish", "Cutting", "កាត់", "Зүсэх", "切割", "ตัด", "Резка"),
    SlangItem("나라시", "평탄화 (Leveling)", "Làm phẳng", "Tekislash", "Leveling", "ធ្វើឲ្យរាប", "Тэгшлэх", "找平", "ปรับระดับ", "Выравнивание"),
    SlangItem("네지", "나사 (Screw)", "Vít", "Vint", "Screw", "វីស", "Боолт", "螺丝", "สกรู", "Винт"),
    SlangItem("노가다", "막일/노동 (Labor)", "Lao động", "Mehnat", "Labor work", "ការងារ", "Хөдөлмөр", "劳动", "งานแรงงาน", "Труд"),
    SlangItem("노미", "끌/정 (Chisel)", "Đục", "Keskir", "Chisel", "ដែក​កាត់", "Цуулуур", "凿子", "สิ่ว", "Долото"),
    SlangItem("누끼", "빼기/제거 (Removal)", "Loại bỏ", "Olib tashlash", "Removal", "ដក", "Авах", "去除", "การนำออก", "Удаление"),
    SlangItem("다데", "세로 (Vertical)", "Dọc", "Vertikal", "Vertical", "បញ្ឈរ", "Босоо", "纵向", "แนวตั้ง", "Вертикаль"),
    SlangItem("다루끼", "각목 (Timber)", "Gỗ thanh", "Yog'och", "Timber", "ឈើ", "Мод", "木材", "ไม้", "Брусок")
  ]

  const SlangBlock2: seq<SlangItem> := [
    SlangItem("단도리", "준비/채비 (Preparation)", "Chuẩn bị", "Tayyorgarlik", "Preparation", "ការរៀបចំ", "Бэлтгэл", "准备", "การเตรียมตัว", "Подготовка"),
    SlangItem("덴바", "윗면 (Top surface)", "Mặt trên", "Yuqori qism", "Top surface", "ផ្ទៃខាងលើ", "Дээд тал", "表面", "พื้นผิวด้านบน", "Верхняя поверхность"),
    SlangItem("덴죠", "천장 (Ceiling)", "Trần nhà", "Shift", "Ceiling", "ពិដាន", "Таазан", "天花板", "เพดาน", "Потолок"),
    SlangItem("데마찌", "대기/작업중단 (Waiting)", "Chờ đợi", "Kutish", "Waiting", "រង់ចាំ", "Хүлээх", "等待", "รอ", "Ожидание"),
    SlangItem("도끼다시", "갈아내기 (Grinding)", "Mài", "Silliqlash", "Grinding", "កិន", "Нунтаглах", "打磨", "การเจียร", "Шлифовка"),
    SlangItem("돈내기", "하청 (Subcontract)", "Thầu phụ", "Subpudrat", "Subcontract", "អ្នកម៉ៅកា", "Туслан гүйцэтгэгч", "分包", "รับเหมาช่วง", "Субподряд"),
    SlangItem("마끼", "감기/감아올리기 (Winding)", "Quấn", "O'rash", "Winding", "រុំ", "Ороох", "缠绕", "พัน", "Намотка"),
    SlangItem("마끼자", "줄자 (Tape measure)", "Thước dây", "Lenta o'lchagich", "Tape measure", "ម៉ែត្រ", "Метр", "卷尺", "ตลับเมตร", "Рулетка")
  ]

  const SlangBlock3: seq<SlangItem> := [
    SlangItem("메지", "줄눈 (Grout joint)", "Mạch vữa", "Teshik", "Grout joint", "បន្ទាត់", "Зай", "灰缝", "รอยต่อ", "Шов"),
    SlangItem("미다시", "제치장/전면노출 (Exposed)", "Lộ diện", "Ochiq", "Exposed", "ប៉ះពាល់", "Ил гарсан", "外露", "โผล่", "Открытый"),
    SlangItem("미쓰모리", "견적 (Estimate)", "Báo giá", "Hisoblab chiqish", "Estimate", "ការប៉ាន់ស្មាន", "Төсөв", "报价", "ประมาณการ", "Смета"),
    SlangItem("밀대", "미장흙손 (Trowel)", "Bay xây", "Malala", "Trowel", "បន្ទះ", "Шавар тараагч", "抹刀", "เกรียง", "Кельма"),
    SlangItem("바라시", "해체 (Dismantling)", "Tháo dỡ", "Demontaj", "Dismantling", "រុះរើ", "Буулгах", "拆除", "ถอดประกอบ", "Демонтаж"),
    SlangItem("반셍", "철선 (Wire)", "Dây thép", "Sim", "Wire", "ខ្សែដែក", "Утас", "铁丝", "ลวด", "Проволока"),
    SlangItem("베니야", "합판 (Plywood)", "Gỗ dán", "Fanera", "Plywood", "ផ្ទាំងឈើ", "Фанер", "胶合板", "ไม้อัด", "Фанера"),
    SlangItem("빠루", "못빼기/쇠지레 (Crowbar)", "Xà beng", "Kaltak", "Crowbar", "រនុក", "Хов", "撬棍", "ชะแลง", "Лом")
  ]

  const SlangBlock4: seq<SlangItem> := [
    SlangItem("뻥칠", "과장/허풍 (Exaggeration)", "Phóng đại", "Bo'rtirish", "Exaggeration", "បំផ្លើស", "Хэтрүүлэлт", "夸张", "พูดเกินจริง", "Преувеличение"),
    SlangItem("사게부리", "다림추 (Plumb bob)", "Quả dọi", "Qurg'oshin", "Plumb bob", "ខ្សែបន្ទាត់", "Дарилга", "铅锤", "ลูกดิ่ง", "Отвес"),
    SlangItem("사뽀도", "지지대 (Support)", "Cột chống", "Tayanchok", "Support", "ទ្រ", "Тулгуур", "支撑", "ค้ำยัน", "Опора"),
    SlangItem("세와", "폭 (Width)", "Chiều rộng", "Kenglik", "Width", "ទទឹង", "Өргөн", "宽度", "ความกว้าง", "Ширина"),
    SlangItem("시아게", "마감 (Finishing)", "Hoàn thiện", "Tugatish", "Finishing", "បញ្ចប់", "Дуусгал", "收尾", "งานตกแต่ง", "Отделка"),
    SlangItem("시마이", "마무리 (Completion)", "Hoàn thành", "Yakunlash", "Completion", "បញ្ចប់", "Дуусгах", "完成", "เสร็จสิ้น", "Завершение"),
    SlangItem("신나", "희석제/시너 (Thinner)", "Dung môi", "Erituvchi", "Thinner", "ទឹកថ្នាំ", "Шингэлэгч", "稀释剂", "ทินเนอร์", "Растворитель"),
    SlangItem("아시바", "비계 (Scaffolding)", "Giàn giáo", "Iskala", "Scaffolding", "រនោច", "Шат", "脚手架", "นั่งร้าน", "Леса")
  ]

  const SlangBlock5: seq<SlangItem> := [
    SlangItem("야끼", "불에 굽기/열처리 (Heating)", "Nung", "Qizdirish", "Heating", "ដុត", "Халаах", "加热", "เผา", "Нагрев"),
    SlangItem("야리끼리", "할당작업 (Quota work)", "Công khoán", "Kvota ishi", "Quota work", "ការងារកំណត់", "Хувь ажил", "定额工作", "งานโควตา", "Сдельная работа"),
    SlangItem("야마", "산/언덕 (Pile)", "Đống", "To'da", "Pile", "គំនរ", "Овоо", "堆", "กอง", "Куча"),
    SlangItem("오야지", "책임자/반장 (Supervisor)", "Giám sát", "Nazoratchi", "Supervisor", "អ្នកគ្រប់គ្រង", "Дарга", "负责人", "หัวหน้า", "Прораб"),
    SlangItem("우마", "말비계 (Horse scaffold)", "Giàn ngựa", "Ot platformasi", "Horse scaffold", "សេះ", "Морин тавцан", "马凳", "ม้าไม้", "Подмости"),
    SlangItem("유도리", "융통성/여유 (Flexibility)", "Linh hoạt", "Moslashuvchanlik", "Flexibility", "ត្រួសត្រាយ", "Уян хатан", "灵活", "ความยืดหยุ่น", "Гибкость"),
    SlangItem("젠다이", "선반 (Shelf)", "Kệ", "Javon", "Shelf", "ធ្នើ", "Тавиур", "架子", "ชั้นวาง", "Полка"),
    SlangItem("조이스", "장선 (Joist)", "Xà gồ", "Yog'och to'sin", "Joist", "ធ្នឹម", "Дам", "托梁", "คาน", "Балка")
  ]

  const SlangBlock6: seq<SlangItem> := [
    SlangItem("짬밥", "경험/경력 (Experience)", "Kinh nghiệm", "Tajriba", "Experience", "បទពិសោធន៍", "Туршлага", "经验", "ประสบการณ์", "Опыт"),
    SlangItem("쿠사비", "쐐기 (Wedge)", "Nêm", "Ponk", "Wedge", "ស្នាម", "Шаантаг", "楔子", "ลิ่ม", "Клин"),
    SlangItem("기스", "긁힌자국/흠집 (Scratch)", "Vết xước", "Tirnalish", "Scratch", "រោយ", "Зураас", "刮痕", "รอยขีดข่วน", "Царапина"),
    SlangItem("다시", "다시/재작업 (Redo)", "Làm lại", "Qayta qilish", "Redo", "ធ្វើម្តងទៀត", "Дахин хийх", "重做", "ทำใหม่", "Переделка"),
    SlangItem("타일링", "타일공사 (Tiling)", "Ốp lát", "Plitka qo'yish", "Tiling", "ក្រាលក្បឿង", "Хавтан тавих", "贴瓷砖", "ปูกระเบื้อง", "Облицовка плиткой"),
    SlangItem("빠데", "퍼티/방충 (Putty)", "Bột trét", "Shpaklyovka", "Putty", "កែវ", "Шпатлюр", "腻子", "ซีลเลอร์", "Шпатлевка"),
    SlangItem("빤스", "합판/패널 (Panel)", "Tấm ván", "Panel", "Panel", "បន្ទះ", "Хавтан", "面板", "แผ่น", "Панель"),
    SlangItem("하바끼", "걸레받이 (Baseboard)", "Len chân tường", "Plinta", "Baseboard", "បន្ទះជើង", "Хажуугийн мод", "踢脚线", "บัวเชิงผนัง", "Плинтус")
  ]

  const SlangBlock7: seq<SlangItem> := [
    SlangItem("함바", "현장식당 (Site canteen)", "Căng tin", "Oshxona", "Canteen", "កន្ទីន", "Гуанз", "食堂", "โรงอาหาร", "Столовая"),
    SlangItem("헤베", "평방미터 (㎡)", "Mét vuông", "Kvadrat metr", "Square meter", "ម៉ែត្រការ៉េ", "М.кв", "平方米", "ตารางเมตร", "Квадратный метр"),
    SlangItem("히끼", "당김/인장 (Pull)", "Kéo", "Tortish", "Pull", "ទាញ", "Татах", "拉", "ดึง", "Тяга"),
    SlangItem("가이당", "계단 (Stairs)", "Cầu thang", "Zina", "Stairs", "ជណ្ដើរ", "Шат", "楼梯", "บันได", "Лестница"),
    SlangItem("레벨", "수평 (Level)", "Ngang bằng", "Gorizontal", "Level", "កម្រិត", "Түвшин", "水平", "ระดับ", "Уровень"),
    SlangItem("센터", "중심 (Center)", "Trung tâm", "Markaz", "Center", "កណ្ដាល", "Төв", "中心", "ศูนย์กลาง", "Центр"),
    SlangItem("앙카", "앵커/고정장치 (Anchor)", "Neo", "Anker", "Anchor", "យុថ្កា", "Анкер", "锚", "สมอ", "Анкер"),
    SlangItem("타카", "스테이플러/타카기 (Stapler)", "Súng bắn ghim", "Steypler", "Staple gun", "ម៉ាស៊ីនទប់", "Степлер", "订书机", "แม็กเย็บ", "Степлер")
  ]

  const SlangBlock8: seq<SlangItem> := [
    SlangItem("레미콘", "레디믹스콘크리트 (Ready-mix)", "Bê tông trộn sẵn", "Tayyor beton", "Ready-mix", "បេតុងលាយ", "Бэлэн бетон", "预拌混凝土", "คอนกรีตผสมเสร็จ", "Товарный бетон"),
    SlangItem("철근", "철근 (Rebar)", "Cốt thép", "Armatura", "Rebar", "ដែក", "Арматур", "钢筋", "เหล็ก", "Арматура"),
    SlangItem("타설", "콘크리트부음 (Pouring)", "Đổ bê tông", "Quyish", "Pouring", "ចាក់", "Цутгах", "浇筑", "เท", "Заливка"),
    SlangItem("양생", "콘크리트양생 (Curing)", "Bảo dưỡng", "Pishirish", "Curing", "ព្យាបាល", "Эмчлэх", "养护", "บ่ม", "Твердение"),
    SlangItem("다짐", "다짐작업 (Compaction)", "Đầm nén", "Zich qilish", "Compaction", "បង្ហាប់", "Нягтруулах", "夯实", "บดอัด", "Уплотнение")
  ]

  const Sites: seq<Site> := [
    Site(1, "과천G-TOWN", "경기", true),
    Site(2, "과천자이", "경기", true),
    Site(3, "광교지산", "경기", true),
    Site(4, "당산디엘", "서울", true),
    Site(5, "대우왕숙", "경기", true),
    Site(6, "동탄대우", "경기", true),
    Site(7, "블랑써밋", "서울", true),
    Site(8, "부산대방2차", "부산", true),
    Site(9, "부산대방3차", "부산", true),
    Site(10, "복대자이", "충북", true),
    Site(11, "삼송 데이타센터", "경기", true),
    Site(12, "삼척", "강원", true),
    Site(13, "산성대우", "경기", true),
    Site(14, "성수동처", "서울", true),
    Site(15, "안성현대차", "경기", true),
    Site(16, "여수디엘", "전남", true),
    Site(17, "왕숙대우", "경기", true),
    Site(18, "울산현대", "울산", true),
    Site(19, "원주무실", "강원", true),
    Site(20, "의정부대우", "경기", true),
    Site(21, "이천자이", "경기", true),
    Site(22, "진접디엘", "경기", true),
    Site(23, "청주테크노폴리스", "충북", true),
    Site(24, "청주효성", "충북", true),
    Site(25, "탕정대우", "충남", true),
    Site(26, "탕정디엘", "충남", true)
  ]

  // ---------------------------------------------------------------------
  // Shape of the tables

  /** Language codes have the `xx-XX` shape the speech APIs expect. */
  predicate IsLocaleCode(code: string) {
    |code| == 5 && code[2] == '-'
    && 'a' <= code[0] <= 'z' && 'a' <= code[1] <= 'z'
    && 'A' <= code[3] <= 'Z' && 'A' <= code[4] <= 'Z'
  }

  /** The eight worker languages, each with a well-formed, distinct code and non-empty labels. */
  lemma LanguagesWellFormed()
    ensures |Languages| == 8
    ensures forall i :: 0 <= i < |Languages| ==> IsLocaleCode(Languages[i].code)
    ensures forall i :: 0 <= i < |Languages| ==> Languages[i].name != [] && Languages[i].koLabel != []
    ensures forall i, j :: 0 <= i < j < |Languages| ==> Languages[i].code != Languages[j].code
  {
  }

  /** The jargon keys of `s` are pairwise different. */
  predicate DistinctKeys(s: seq<SlangItem>) {
    forall i, j :: 0 <= i < j < |s| ==> s[i].slang != s[j].slang
  }

  /** No jargon key of `a` is a key of `b`. */
  predicate KeysApart(a: seq<SlangItem>, b: seq<SlangItem>) {
    forall i, j :: 0 <= i < |a| && 0 <= j < |b| ==> a[i].slang != b[j].slang
  }

  /** Every column of the row holds text. */
  predicate Filled(it: SlangItem) {
    it.slang != [] && it.standard != [] && it.vi != [] && it.uz != [] && it.en != []
    && it.km != [] && it.mn != [] && it.zh != [] && it.th != [] && it.ru != []
  }

  predicate AllFilled(s: seq<SlangItem>) {
    forall i :: 0 <= i < |s| ==> Filled(s[i])
  }

  lemma JoinDistinct(a: seq<SlangItem>, b: seq<SlangItem>)
    requires DistinctKeys(a) && DistinctKeys(b) && KeysApart(a, b)
    ensures DistinctKeys(a + b)
  {
    var ab := a + b;
    forall i, j | 0 <= i < j < |ab|
      ensures ab[i].slang != ab[j].slang
    {
      if j < |a| {
        assert ab[i] == a[i] && ab[j] == a[j];
      } else if i < |a| {
        assert ab[i] == a[i] && ab[j] == b[j - |a|];
      } else {
        assert ab[i] == b[i - |a|] && ab[j] == b[j - |a|];
      }
    }
  }

  lemma JoinApart(a: seq<SlangItem>, b: seq<SlangItem>, c: seq<SlangItem>)
    requires KeysApart(a, c) && KeysApart(b, c)
    ensures KeysApart(a + b, c)
  {
    var ab := a + b;
    forall i, j | 0 <= i < |ab| && 0 <= j < |c|
      ensures ab[i].slang != c[j].slang
    {
      if i < |a| {
        assert ab[i] == a[i];
      } else {
        assert ab[i] == b[i - |a|];
      }
    }
  }

  lemma JoinFilled(a: seq<SlangItem>, b: seq<SlangItem>)
    requires AllFilled(a) && AllFilled(b)
    ensures AllFilled(a + b)
  {
    var ab := a + b;
    forall i | 0 <= i < |ab|
      ensures Filled(ab[i])
    {
      if i < |a| {
        assert ab[i] == a[i];
      } else {
        assert ab[i] == b[i - |a|];
      }
    }
  }

  // One small lemma per block and per half of a pair of blocks: each compares
  // at most thirty-two pairs of literal keys, which keeps every proof
  // obligation cheap.

  lemma SlangBlockDistinct0()
    ensures DistinctKeys(SlangBlock0)
  {
    var b := SlangBlock0;
    forall i | 0 <= i < |b|
      ensures forall j :: i < j < |b| ==> b[i].slang != b[j].slang
    {
    }
  }
  lemma SlangBlockFilled0() ensures AllFilled(SlangBlock0) { SlangRowsFilled0(0, 4); SlangRowsFilled0(4, |SlangBlock0|); }
  lemma SlangRowsFilled0(lo: nat, hi: nat)
    requires (lo == 0 && hi == 4) || (lo == 4 && hi == |SlangBlock0|)
    ensures forall i :: lo <= i < hi ==> Filled(SlangBlock0[i]) {}
  lemma SlangBlockDistinct1()
    ensures DistinctKeys(SlangBlock1)
  {
    var b := SlangBlock1;
    forall i | 0 <= i < |b|
      ensures forall j :: i < j < |b| ==> b[i].slang != b[j].slang
    {
    }
  }
  lemma SlangBlockFilled1() ensures AllFilled(SlangBlock1) { SlangRowsFilled1(0, 4); SlangRowsFilled1(4, |SlangBlock1|); }
  lemma SlangRowsFilled1(lo: nat, hi: nat)
    requires (lo == 0 && hi == 4) || (lo == 4 && hi == |SlangBlock1|)
    ensures forall i :: lo <= i < hi ==> Filled(SlangBlock1[i]) {}
  lemma SlangBlockDistinct2()
    ensures DistinctKeys(SlangBlock2)
  {
    var b := SlangBlock2;
    forall i | 0 <= i < |b|
      ensures forall j :: i < j < |b| ==> b[i].slang != b[j].slang
    {
    }
  }
  lemma SlangBlockFilled2() ensures AllFilled(SlangBlock2) { SlangRowsFilled2(0, 4); SlangRowsFilled2(4, |SlangBlock2|); }
  lemma SlangRowsFilled2(lo: nat, hi: nat)
    requires (lo == 0 && hi == 4) || (lo == 4 && hi == |SlangBlock2|)
    ensures forall i :: lo <= i < hi ==> Filled(SlangBlock2[i]) {}
  lemma SlangBlockDistinct3()
    ensures DistinctKeys(SlangBlock3)
  {
    var b := SlangBlock3;
    forall i | 0 <= i < |b|
      ensures forall j :: i < j < |b| ==> b[i].slang != b[j].slang
    {
    }
  }
  lemma SlangBlockFilled3() ensures AllFilled(SlangBlock3) { SlangRowsFilled3(0, 4); SlangRowsFilled3(4, |SlangBlock3|); }
  lemma SlangRowsFilled3(lo: nat, hi: nat)
    requires (lo == 0 && hi == 4) || (lo == 4 && hi == |SlangBlock3|)
    ensures forall i :: lo <= i < hi ==> Filled(SlangBlock3[i]) {}
  lemma SlangBlockDistinct4()
    ensures DistinctKeys(SlangBlock4)
  {
    var b := SlangBlock4;
    forall i | 0 <= i < |b|
      ensures forall j :: i < j < |b| ==> b[i].slang != b[j].slang
    {
    }
  }
  lemma SlangBlockFilled4() ensures AllFilled(SlangBlock4) { SlangRowsFilled4(0, 4); SlangRowsFilled4(4, |SlangBlock4|); }
  lemma SlangRowsFilled4(lo: nat, hi: nat)
    requires (lo == 0 && hi == 4) || (lo == 4 && hi == |SlangBlock4|)
    ensures forall i :: lo <= i < hi ==> Filled(SlangBlock4[i]) {}
  lemma SlangBlockDistinct5()
    ensures DistinctKeys(SlangBlock5)
  {
    var b := SlangBlock5;
    forall i | 0 <= i < |b|
      ensures forall j :: i < j < |b| ==> b[i].slang != b[j].slang
    {
    }
  }
  lemma SlangBlockFilled5() ensures AllFilled(SlangBlock5) { SlangRowsFilled5(0, 4); SlangRowsFilled5(4, |SlangBlock5|); }
  lemma SlangRowsFilled5(lo: nat, hi: nat)
    requires (lo == 0 && hi == 4) || (lo == 4 && hi == |SlangBlock5|)
    ensures forall i :: lo <= i < hi ==> Filled(SlangBlock5[i]) {}
  lemma SlangBlockDistinct6()
    ensures DistinctKeys(SlangBlock6)
  {
    var b := SlangBlock6;
    forall i | 0 <= i < |b|
      ensures forall j :: i < j < |b| ==> b[i].slang != b[j].slang
    {
    }
  }
  lemma SlangBlockFilled6() ensures AllFilled(SlangBlock6) { SlangRowsFilled6(0, 4); SlangRowsFilled6(4, |SlangBlock6|); }
  lemma SlangRowsFilled6(lo: nat, hi: nat)
    requires (lo == 0 && hi == 4) || (lo == 4 && hi == |SlangBlock6|)
    ensures forall i :: lo <= i < hi ==> Filled(SlangBlock6[i]) {}
  lemma SlangBlockDistinct7()
    ensures DistinctKeys(SlangBlock7)
  {
    var b := SlangBlock7;
    forall i | 0 <= i < |b|
      ensures forall j :: i < j < |b| ==> b[i].slang != b[j].slang
    {
    }
  }
  lemma SlangBlockFilled7() ensures AllFilled(SlangBlock7) { SlangRowsFilled7(0, 4); SlangRowsFilled7(4, |SlangBlock7|); }
  lemma SlangRowsFilled7(lo: nat, hi: nat)
    requires (lo == 0 && hi == 4) || (lo == 4 && hi == |SlangBlock7|)
    ensures forall i :: lo <= i < hi ==> Filled(SlangBlock7[i]) {}
  lemma SlangBlockDistinct8()
    ensures DistinctKeys(SlangBlock8)
  {
    var b := SlangBlock8;
    forall i | 0 <= i < |b|
      ensures forall j :: i < j < |b| ==> b[i].slang != b[j].slang
    {
    }
  }
  lemma SlangBlockFilled8() ensures AllFilled(SlangBlock8) { SlangRowsFilled8(0, 4); SlangRowsFilled8(4, |SlangBlock8|); }
  lemma SlangRowsFilled8(lo: nat, hi: nat)
    requires (lo == 0 && hi == 4) || (lo == 4 && hi == |SlangBlock8|)
    ensures forall i :: lo <= i < hi ==> Filled(SlangBlock8[i]) {}

  lemma SlangBlocksApart01()
    ensures KeysApart(SlangBlock0, SlangBlock1)
  {
    SlangRowsApart01(0, 4);
    SlangRowsApart01(4, |SlangBlock0|);
  }
  lemma SlangRowsApart01(lo: nat, hi: nat)
    requires (lo == 0 && hi == 4) || (lo == 4 && hi == |SlangBlock0|)
    ensures forall i, j :: lo <= i < hi && 0 <= j < |SlangBlock1| ==> SlangBlock0[i].slang != SlangBlock1[j].slang
  {
    var a, b := SlangBlock0, SlangBlock1;
    forall i | lo <= i < hi
      ensures forall j :: 0 <= j < |b| ==> a[i].slang != b[j].slang
    {
    }
  }
  lemma SlangBlocksApart02()
    ensures KeysApart(SlangBlock0, SlangBlock2)
  {
    SlangRowsApart02(0, 4);
    SlangRowsApart02(4, |SlangBlock0|);
  }
  lemma SlangRowsApart02(lo: nat, hi: nat)
    requires (lo == 0 && hi == 4) || (lo == 4 && hi == |SlangBlock0|)
    ensures forall i, j :: lo <= i < hi && 0 <= j < |SlangBlock2| ==> SlangBlock0[i].slang != SlangBlock2[j].slang
  {
    var a, b := SlangBlock0, SlangBlock2;
    forall i | lo <= i < hi
      ensures forall j :: 0 <= j < |b| ==> a[i].slang != b[j].slang
    {
    }
  }
  lemma SlangBlocksApart12()
    ensures KeysApart(SlangBlock1, SlangBlock2)
  {
    SlangRowsApart12(0, 4);
    SlangRowsApart12(4, |SlangBlock1|);
  }
  lemma SlangRowsApart12(lo: nat, hi: nat)
    requires (lo == 0 && hi == 4) || (lo == 4 && hi == |SlangBlock1|)
    ensures forall i, j :: lo <= i < hi && 0 <= j < |SlangBlock2| ==> SlangBlock1[i].slang != SlangBlock2[j].slang
  {
    var a, b := SlangBlock1, SlangBlock2;
    forall i | lo <= i < hi
      ensures forall j :: 0 <= j < |b| ==> a[i].slang != b[j].slang
    {
    }
  }
  lemma SlangBlocksApart03()
    ensures KeysApart(SlangBlock0, SlangBlock3)
  {
    SlangRowsApart03(0, 4);
    SlangRowsApart03(4, |SlangBlock0|);
  }
  lemma SlangRowsApart03(lo: nat, hi: nat)
    requires (lo == 0 && hi == 4) || (lo == 4 && hi == |SlangBlock0|)
    ensures forall i, j :: lo <= i < hi && 0 <= j < |SlangBlock3| ==> SlangBlock0[i].slang != SlangBlock3[j].slang
  {
    var a, b := SlangBlock0, SlangBlock3;
    forall i | lo <= i < hi
      ensures forall j :: 0 <= j < |b| ==> a[i].slang != b[j].slang
    {
    }
  }
  lemma SlangBlocksApart13()
    ensures KeysApart(SlangBlock1, SlangBlock3)
  {
    SlangRowsApart13(0, 4);
    SlangRowsApart13(4, |SlangBlock1|);
  }
  lemma SlangRowsApart13(lo: nat, hi: nat)
    requires (lo == 0 && hi == 4) || (lo == 4 && hi == |SlangBlock1|)
    ensures forall i, j :: lo <= i < hi && 0 <= j < |SlangBlock3| ==> SlangBlock1[i].slang != SlangBlock3[j].slang
  {
    var a, b := SlangBlock1, SlangBlock3;
    forall i | lo <= i < hi
      ensures forall j :: 0 <= j < |b| ==> a[i].slang != b[j].slang
    {
    }
  }
  lemma SlangBlocksApart23()
    ensures KeysApart(SlangBlock2, SlangBlock3)
  {
    SlangRowsApart23(0, 4);
    SlangRowsApart23(4, |SlangBlock2|);
  }
  lemma SlangRowsApart23(lo: nat, hi: nat)
    requires (lo == 0 && hi == 4) || (lo == 4 && hi == |SlangBlock2|)
    ensures forall i, j :: lo <= i < hi && 0 <= j < |SlangBlock3| ==> SlangBlock2[i].slang != SlangBlock3[j].slang
  {
    var a, b := SlangBlock2, SlangBlock3;
    forall i | lo <= i < hi
      ensures forall j :: 0 <= j < |b| ==> a[i].slang != b[j].slang
    {
    }
  }
  lemma SlangBlocksApart04()
    ensures KeysApart(SlangBlock0, SlangBlock4)
  {
    SlangRowsApart04(0, 4);
    SlangRowsApart04(4, |SlangBlock0|);
  }
  lemma SlangRowsApart04(lo: nat, hi: nat)
    requires (lo == 0 && hi == 4) || (lo == 4 && hi == |SlangBlock0|)
    ensures forall i, j :: lo <= i < hi && 0 <= j < |SlangBlock4| ==> SlangBlock0[i].slang != SlangBlock4[j].slang
  {
    var a, b := SlangBlock0, SlangBlock4;
    forall i | lo <= i < hi
      ensures forall j :: 0 <= j < |b| ==> a[i].slang != b[j].slang
    {
    }
  }
  lemma SlangBlocksApart14()
    ensures KeysApart(SlangBlock1, SlangBlock4)
  {
    SlangRowsApart14(0, 4);
    SlangRowsApart14(4, |SlangBlock1|);
  }
  lemma SlangRowsApart14(lo: nat, hi: nat)
    requires (lo == 0 && hi == 4) || (lo == 4 && hi == |SlangBlock1|)
    ensures forall i, j :: lo <= i < hi && 0 <= j < |SlangBlock4| ==> SlangBlock1[i].slang != SlangBlock4[j].slang
  {
    var a, b := SlangBlock1, SlangBlock4;
    forall i | lo <= i < hi
      ensures forall j :: 0 <= j < |b| ==> a[i].slang != b[j].slang
    {
    }
  }
  lemma SlangBlocksApart24()
    ensures KeysApart(SlangBlock2, SlangBlock4)
  {
    SlangRowsApart24(0, 4);
    SlangRowsApart24(4, |SlangBlock2|);
  }
  lemma SlangRowsApart24(lo: nat, hi: nat)
    requires (lo == 0 && hi == 4) || (lo == 4 && hi == |SlangBlock2|)
    ensures forall i, j :: lo <= i < hi && 0 <= j < |SlangBlock4| ==> SlangBlock2[i].slang != SlangBlock4[j].slang
  {
    var a, b := SlangBlock2, SlangBlock4;
    forall i | lo <= i < hi
      ensures forall j :: 0 <= j < |b| ==> a[i].slang != b[j].slang
    {
    }
  }
  lemma SlangBlocksApart34()
    ensures KeysApart(SlangBlock3, SlangBlock4)
  {
    SlangRowsApart34(0, 4);
    SlangRowsApart34(4, |SlangBlock3|);
  }
  lemma SlangRowsApart34(lo: nat, hi: nat)
    requires (lo == 0 && hi == 4) || (lo == 4 && hi == |SlangBlock3|)
    ensures forall i, j :: lo <= i < hi && 0 <= j < |SlangBlock4| ==> SlangBlock3[i].slang != SlangBlock4[j].slang
  {
    var a, b := SlangBlock3, SlangBlock4;
    forall i | lo <= i < hi
      ensures forall j :: 0 <= j < |b| ==> a[i].slang != b[j].slang
    {
    }
  }
  lemma SlangBlocksApart05()
    ensures KeysApart(SlangBlock0, SlangBlock5)
  {
    SlangRowsApart05(0, 4);
    SlangRowsApart05(4, |SlangBlock0|);
  }
  lemma SlangRowsApart05(lo: nat, hi: nat)
    requires (lo == 0 && hi == 4) || (lo == 4 && hi == |SlangBlock0|)
    ensures forall i, j :: lo <= i < hi && 0 <= j < |SlangBlock5| ==> SlangBlock0[i].slang != SlangBlock5[j].slang
  {
    var a, b := SlangBlock0, SlangBlock5;
    forall i | lo <= i < hi
      ensures forall j :: 0 <= j < |b| ==> a[i].slang != b[j].slang
    {
    }
  }
  lemma SlangBlocksApart15()
    ensures KeysApart(SlangBlock1, SlangBlock5)
  {
    SlangRowsApart15(0, 4);
    SlangRowsApart15(4, |SlangBlock1|);
  }
  lemma SlangRowsApart15(lo: nat, hi: nat)
    requires (lo == 0 && hi == 4) || (lo == 4 && hi == |SlangBlock1|)
    ensures forall i, j :: lo <= i < hi && 0 <= j < |SlangBlock5| ==> SlangBlock1[i].slang != SlangBlock5[j].slang
  {
    var a, b := SlangBlock1, SlangBlock5;
    forall i | lo <= i < hi
      ensures forall j :: 0 <= j < |b| ==> a[i].slang != b[j].slang
    {
    }
  }
  lemma SlangBlocksApart25()
    ensures KeysApart(SlangBlock2, SlangBlock5)
  {
    SlangRowsApart25(0, 4);
    SlangRowsApart25(4, |SlangBlock2|);
  }
  lemma SlangRowsApart25(lo: nat, hi: nat)
    requires (lo == 0 && hi == 4) || (lo == 4 && hi == |SlangBlock2|)
    ensures forall i, j :: lo <= i < hi && 0 <= j < |SlangBlock5| ==> SlangBlock2[i].slang != SlangBlock5[j].slang
  {
    var a, b := SlangBlock2, SlangBlock5;
    forall i | lo <= i < hi
      ensures forall j :: 0 <= j < |b| ==> a[i].slang != b[j].slang
    {
    }
  }
  lemma SlangBlocksApart35()
    ensures KeysApart(SlangBlock3, SlangBlock5)
  {
    SlangRowsApart35(0, 4);
    SlangRowsApart35(4, |SlangBlock3|);
  }
  lemma SlangRowsApart35(lo: nat, hi: nat)
    requires (lo == 0 && hi == 4) || (lo == 4 && hi == |SlangBlock3|)
    ensures forall i, j :: lo <= i < hi && 0 <= j < |SlangBlock5| ==> SlangBlock3[i].slang != SlangBlock5[j].slang
  {
    var a, b := SlangBlock3, SlangBlock5;
    forall i | lo <= i < hi
      ensures forall j :: 0 <= j < |b| ==> a[i].slang != b[j].slang
    {
    }
  }
  lemma SlangBlocksApart45()
    ensures KeysApart(SlangBlock4, SlangBlock5)
  {
    SlangRowsApart45(0, 4);
    SlangRowsApart45(4, |SlangBlock4|);
  }
  lemma SlangRowsApart45(lo: nat, hi: nat)
    requires (lo == 0 && hi == 4) || (lo == 4 && hi == |SlangBlock4|)
    ensures forall i, j :: lo <= i < hi && 0 <= j < |SlangBlock5| ==> SlangBlock4[i].slang != SlangBlock5[j].slang
  {
    var a, b := SlangBlock4, SlangBlock5;
    forall i | lo <= i < hi
      ensures forall j :: 0 <= j < |b| ==> a[i].slang != b[j].slang
    {
    }
  }
  lemma SlangBlocksApart06()
    ensures KeysApart(SlangBlock0, SlangBlock6)
  {
    SlangRowsApart06(0, 4);
    SlangRowsApart06(4, |SlangBlock0|);
  }
  lemma SlangRowsApart06(lo: nat, hi: nat)
    requires (lo == 0 && hi == 4) || (lo == 4 && hi == |SlangBlock0|)
    ensures forall i, j :: lo <= i < hi && 0 <= j < |SlangBlock6| ==> SlangBlock0[i].slang != SlangBlock6[j].slang
  {
    var a, b := SlangBlock0, SlangBlock6;
    forall i | lo <= i < hi
      ensures forall j :: 0 <= j < |b| ==> a[i].slang != b[j].slang
    {
    }
  }
  lemma SlangBlocksApart16()
    ensures KeysApart(SlangBlock1, SlangBlock6)
  {
    SlangRowsApart16(0, 4);
    SlangRowsApart16(4, |SlangBlock1|);
  }
  lemma SlangRowsApart16(lo: nat, hi: nat)
    requires (lo == 0 && hi == 4) || (lo == 4 && hi == |SlangBlock1|)
    ensures forall i, j :: lo <= i < hi && 0 <= j < |SlangBlock6| ==> SlangBlock1[i].slang != SlangBlock6[j].slang
  {
    var a, b := SlangBlock1, SlangBlock6;
    forall i | lo <= i < hi
      ensures forall j :: 0 <= j < |b| ==> a[i].slang != b[j].slang
    {
    }
  }
  lemma SlangBlocksApart26()
    ensures KeysApart(SlangBlock2, SlangBlock6)
  {
    SlangRowsApart26(0, 4);
    SlangRowsApart26(4, |SlangBlock2|);
  }
  lemma SlangRowsApart26(lo: nat, hi: nat)
    requires (lo == 0 && hi == 4) || (lo == 4 && hi == |SlangBlock2|)
    ensures forall i, j :: lo <= i < hi && 0 <= j < |SlangBlock6| ==> SlangBlock2[i].slang != SlangBlock6[j].slang
  {
    var a, b := SlangBlock2, SlangBlock6;
    forall i | lo <= i < hi
      ensures forall j :: 0 <= j < |b| ==> a[i].slang != b[j].slang
    {
    }
  }
  lemma SlangBlocksApart36()
    ensures KeysApart(SlangBlock3, SlangBlock6)
  {
    SlangRowsApart36(0, 4);
    SlangRowsApart36(4, |SlangBlock3|);
  }
  lemma SlangRowsApart36(lo: nat, hi: nat)
    requires (lo == 0 && hi == 4) || (lo == 4 && hi == |SlangBlock3|)
    ensures forall i, j :: lo <= i < hi && 0 <= j < |SlangBlock6| ==> SlangBlock3[i].slang != SlangBlock6[j].slang
  {
    var a, b := SlangBlock3, SlangBlock6;
    forall i | lo <= i < hi
      ensures forall j :: 0 <= j < |b| ==> a[i].slang != b[j].slang
    {
    }
  }
  lemma SlangBlocksApart46()
    ensures KeysApart(SlangBlock4, SlangBlock6)
  {
    SlangRowsApart46(0, 4);
    SlangRowsApart46(4, |SlangBlock4|);
  }
  lemma SlangRowsApart46(lo: nat, hi: nat)
    requires (lo == 0 && hi == 4) || (lo == 4 && hi == |SlangBlock4|)
    ensures forall i, j :: lo <= i < hi && 0 <= j < |SlangBlock6| ==> SlangBlock4[i].slang != SlangBlock6[j].slang
  {
    var a, b := SlangBlock4, SlangBlock6;
    forall i | lo <= i < hi
      ensures forall j :: 0 <= j < |b| ==> a[i].slang != b[j].slang
    {
    }
  }
  lemma SlangBlocksApart56()
    ensures KeysApart(SlangBlock5, SlangBlock6)
  {
    SlangRowsApart56(0, 4);
    SlangRowsApart56(4, |SlangBlock5|);
  }
  lemma SlangRowsApart56(lo: nat, hi: nat)
    requires (lo == 0 && hi == 4) || (lo == 4 && hi == |SlangBlock5|)
    ensures forall i, j :: lo <= i < hi && 0 <= j < |SlangBlock6| ==> SlangBlock5[i].slang != SlangBlock6[j].slang
  {
    var a, b := SlangBlock5, SlangBlock6;
    forall i | lo <= i < hi
      ensures forall j :: 0 <= j < |b| ==> a[i].slang != b[j].slang
    {
    }
  }
  lemma SlangBlocksApart07()
    ensures KeysApart(SlangBlock0, SlangBlock7)
  {
    SlangRowsApart07(0, 4);
    SlangRowsApart07(4, |SlangBlock0|);
  }
  lemma SlangRowsApart07(lo: nat, hi: nat)
    requires (lo == 0 && hi == 4) || (lo == 4 && hi == |SlangBlock0|)
    ensures forall i, j :: lo <= i < hi && 0 <= j < |SlangBlock7| ==> SlangBlock0[i].slang != SlangBlock7[j].slang
  {
    var a, b := SlangBlock0, SlangBlock7;
    forall i | lo <= i < hi
      ensures forall j :: 0 <= j < |b| ==> a[i].slang != b[j].slang
    {
    }
  }
  lemma SlangBlocksApart17()
    ensures KeysApart(SlangBlock1, SlangBlock7)
  {
    SlangRowsApart17(0, 4);
    SlangRowsApart17(4, |SlangBlock1|);
  }
  lemma SlangRowsApart17(lo: nat, hi: nat)
    requires (lo == 0 && hi == 4) || (lo == 4 && hi == |SlangBlock1|)
    ensures forall i, j :: lo <= i < hi && 0 <= j < |SlangBlock7| ==> SlangBlock1[i].slang != SlangBlock7[j].slang
  {
    var a, b := SlangBlock1, SlangBlock7;
    forall i | lo <= i < hi
      ensures forall j :: 0 <= j < |b| ==> a[i].slang != b[j].slang
    {
    }
  }
  lemma SlangBlocksApart27()
    ensures KeysApart(SlangBlock2, SlangBlock7)
  {
    SlangRowsApart27(0, 4);
    SlangRowsApart27(4, |SlangBlock2|);
  }
  lemma SlangRowsApart27(lo: nat, hi: nat)
    requires (lo == 0 && hi == 4) || (lo == 4 && hi == |SlangBlock2|)
    ensures forall i, j :: lo <= i < hi && 0 <= j < |SlangBlock7| ==> SlangBlock2[i].slang != SlangBlock7[j].slang
  {
    var a, b := SlangBlock2, SlangBlock7;
    forall i | lo <= i < hi
      ensures forall j :: 0 <= j < |b| ==> a[i].slang != b[j].slang
    {
    }
  }
  lemma SlangBlocksApart37()
    ensures KeysApart(SlangBlock3, SlangBlock7)
  {
    SlangRowsApart37(0, 4);
    SlangRowsApart37(4, |SlangBlock3|);
  }
  lemma SlangRowsApart37(lo: nat, hi: nat)
    requires (lo == 0 && hi == 4) || (lo == 4 && hi == |SlangBlock3|)
    ensures forall i, j :: lo <= i < hi && 0 <= j < |SlangBlock7| ==> SlangBlock3[i].slang != SlangBlock7[j].slang
  {
    var a, b := SlangBlock3, SlangBlock7;
    forall i | lo <= i < hi
      ensures forall j :: 0 <= j < |b| ==> a[i].slang != b[j].slang
    {
    }
  }
  lemma SlangBlocksApart47()
    ensures KeysApart(SlangBlock4, SlangBlock7)
  {
    SlangRowsApart47(0, 4);
    SlangRowsApart47(4, |SlangBlock4|);
  }
  lemma SlangRowsApart47(lo: nat, hi: nat)
    requires (lo == 0 && hi == 4) || (lo == 4 && hi == |SlangBlock4|)
    ensures forall i, j :: lo <= i < hi && 0 <= j < |SlangBlock7| ==> SlangBlock4[i].slang != SlangBlock7[j].slang
  {
    var a, b := SlangBlock4, SlangBlock7;
    forall i | lo <= i < hi
      ensures forall j :: 0 <= j < |b| ==> a[i].slang != b[j].slang
    {
    }
  }
  lemma SlangBlocksApart57()
    ensures KeysApart(SlangBlock5, SlangBlock7)
  {
    SlangRowsApart57(0, 4);
    SlangRowsApart57(4, |SlangBlock5|);
  }
  lemma SlangRowsApart57(lo: nat, hi: nat)
    requires (lo == 0 && hi == 4) || (lo == 4 && hi == |SlangBlock5|)
    ensures forall i, j :: lo <= i < hi && 0 <= j < |SlangBlock7| ==> SlangBlock5[i].slang != SlangBlock7[j].slang
  {
    var a, b := SlangBlock5, SlangBlock7;
    forall i | lo <= i < hi
      ensures forall j :: 0 <= j < |b| ==> a[i].slang != b[j].slang
    {
    }
  }
  lemma SlangBlocksApart67()
    ensures KeysApart(SlangBlock6, SlangBlock7)
  {
    SlangRowsApart67(0, 4);
    SlangRowsApart67(4, |SlangBlock6|);
  }
  lemma SlangRowsApart67(lo: nat, hi: nat)
    requires (lo == 0 && hi == 4) || (lo == 4 && hi == |SlangBlock6|)
    ensures forall i, j :: lo <= i < hi && 0 <= j < |SlangBlock7| ==> SlangBlock6[i].slang != SlangBlock7[j].slang
  {
    var a, b := SlangBlock6, SlangBlock7;
    forall i | lo <= i < hi
      ensures forall j :: 0 <= j < |b| ==> a[i].slang != b[j].slang
    {
    }
  }
  lemma SlangBlocksApart08()
    ensures KeysApart(SlangBlock0, SlangBlock8)
  {
    SlangRowsApart08(0, 4);
    SlangRowsApart08(4, |SlangBlock0|);
  }
  lemma SlangRowsApart08(lo: nat, hi: nat)
    requires (lo == 0 && hi == 4) || (lo == 4 && hi == |SlangBlock0|)
    ensures forall i, j :: lo <= i < hi && 0 <= j < |SlangBlock8| ==> SlangBlock0[i].slang != SlangBlock8[j].slang
  {
    var a, b := SlangBlock0, SlangBlock8;
    forall i | lo <= i < hi
      ensures forall j :: 0 <= j < |b| ==> a[i].slang != b[j].slang
    {
    }
  }
  lemma SlangBlocksApart18()
    ensures KeysApart(SlangBlock1, SlangBlock8)
  {
    SlangRowsApart18(0, 4);
    SlangRowsApart18(4, |SlangBlock1|);
  }
  lemma SlangRowsApart18(lo: nat, hi: nat)
    requires (lo == 0 && hi == 4) || (lo == 4 && hi == |SlangBlock1|)
    ensures forall i, j :: lo <= i < hi && 0 <= j < |SlangBlock8| ==> SlangBlock1[i].slang != SlangBlock8[j].slang
  {
    var a, b := SlangBlock1, SlangBlock8;
    forall i | lo <= i < hi
      ensures forall j :: 0 <= j < |b| ==> a[i].slang != b[j].slang
    {
    }
  }
  lemma SlangBlocksApart28()
    ensures KeysApart(SlangBlock2, SlangBlock8)
  {
    SlangRowsApart28(0, 4);
    SlangRowsApart28(4, |SlangBlock2|);
  }
  lemma SlangRowsApart28(lo: nat, hi: nat)
    requires (lo == 0 && hi == 4) || (lo == 4 && hi == |SlangBlock2|)
    ensures forall i, j :: lo <= i < hi && 0 <= j < |SlangBlock8| ==> SlangBlock2[i].slang != SlangBlock8[j].slang
  {
    var a, b := SlangBlock2, SlangBlock8;
    forall i | lo <= i < hi
      ensures forall j :: 0 <= j < |b| ==> a[i].slang != b[j].slang
    {
    }
  }
  lemma SlangBlocksApart38()
    ensures KeysApart(SlangBlock3, SlangBlock8)
  {
    SlangRowsApart38(0, 4);
    SlangRowsApart38(4, |SlangBlock3|);
  }
  lemma SlangRowsApart38(lo: nat, hi: nat)
    requires (lo == 0 && hi == 4) || (lo == 4 && hi == |SlangBlock3|)
    ensures forall i, j :: lo <= i < hi && 0 <= j < |SlangBlock8| ==> SlangBlock3[i].slang != SlangBlock8[j].slang
  {
    var a, b := SlangBlock3, SlangBlock8;
    forall i | lo <= i < hi
      ensures forall j :: 0 <= j < |b| ==> a[i].slang != b[j].slang
    {
    }
  }
  lemma SlangBlocksApart48()
    ensures KeysApart(SlangBlock4, SlangBlock8)
  {
    SlangRowsApart48(0, 4);
    SlangRowsApart48(4, |SlangBlock4|);
  }
  lemma SlangRowsApart48(lo: nat, hi: nat)
    requires (lo == 0 && hi == 4) || (lo == 4 && hi == |SlangBlock4|)
    ensures forall i, j :: lo <= i < hi && 0 <= j < |SlangBlock8| ==> SlangBlock4[i].slang != SlangBlock8[j].slang
  {
    var a, b := SlangBlock4, SlangBlock8;
    forall i | lo <= i < hi
      ensures forall j :: 0 <= j < |b| ==> a[i].slang != b[j].slang
    {
    }
  }
  lemma SlangBlocksApart58()
    ensures KeysApart(SlangBlock5, SlangBlock8)
  {
    SlangRowsApart58(0, 4);
    SlangRowsApart58(4, |SlangBlock5|);
  }
  lemma SlangRowsApart58(lo: nat, hi: nat)
    requires (lo == 0 && hi == 4) || (lo == 4 && hi == |SlangBlock5|)
    ensures forall i, j :: lo <= i < hi && 0 <= j < |SlangBlock8| ==> SlangBlock5[i].slang != SlangBlock8[j].slang
  {
    var a, b := SlangBlock5, SlangBlock8;
    forall i | lo <= i < hi
      ensures forall j :: 0 <= j < |b| ==> a[i].slang != b[j].slang
    {
    }
  }
  lemma SlangBlocksApart68()
    ensures KeysApart(SlangBlock6, SlangBlock8)
  {
    SlangRowsApart68(0, 4);
    SlangRowsApart68(4, |SlangBlock6|);
  }
  lemma SlangRowsApart68(lo: nat, hi: nat)
    requires (lo == 0 && hi == 4) || (lo == 4 && hi == |SlangBlock6|)
    ensures forall i, j :: lo <= i < hi && 0 <= j < |SlangBlock8| ==> SlangBlock6[i].slang != SlangBlock8[j].slang
  {
    var a, b := SlangBlock6, SlangBlock8;
    forall i | lo <= i < hi
      ensures forall j :: 0 <= j < |b| ==> a[i].slang != b[j].slang
    {
    }
  }
  lemma SlangBlocksApart78()
    ensures KeysApart(SlangBlock7, SlangBlock8)
  {
    SlangRowsApart78(0, 4);
    SlangRowsApart78(4, |SlangBlock7|);
  }
  lemma SlangRowsApart78(lo: nat, hi: nat)
    requires (lo == 0 && hi == 4) || (lo == 4 && hi == |SlangBlock7|)
    ensures forall i, j :: lo <= i < hi && 0 <= j < |SlangBlock8| ==> SlangBlock7[i].slang != SlangBlock8[j].slang
  {
    var a, b := SlangBlock7, SlangBlock8;
    forall i | lo <= i < hi
      ensures forall j :: 0 <= j < |b| ==> a[i].slang != b[j].slang
    {
    }
  }

  /** The 69 built-in rows have pairwise different jargon keys and no empty column. */
  lemma {:induction false} SlangTableWellFormed()
    ensures |NogadaSlang| == 69
    ensures DistinctKeys(NogadaSlang)
    ensures AllFilled(NogadaSlang)
  {
    SlangPrefixWellFormed8();
  }

  /** Block 1 shares no key with the blocks before it. */
  lemma SlangPrefixApart1()
    ensures KeysApart(SlangBlock0, SlangBlock1)
  {
    SlangBlocksApart01();
  }

  /** Block 2 shares no key with the blocks before it. */
  lemma SlangPrefixApart2()
    ensures KeysApart(SlangBlock0 + SlangBlock1, SlangBlock2)
  {
    SlangBlocksApart02();
    SlangBlocksApart12();
    JoinApart(SlangBlock0, SlangBlock1, SlangBlock2);
  }

  /** Block 3 shares no key with the blocks before it. */
  lemma SlangPrefixApart3()
    ensures KeysApart(SlangBlock0 + SlangBlock1 + SlangBlock2, SlangBlock3)
  {
    SlangBlocksApart03();
    SlangBlocksApart13();
    SlangBlocksApart23();
    JoinApart(SlangBlock0, SlangBlock1, SlangBlock3);
    JoinApart(SlangBlock0 + SlangBlock1, SlangBlock2, SlangBlock3);
  }

  /** Block 4 shares no key with the blocks before it. */
  lemma SlangPrefixApart4()
    ensures KeysApart(SlangBlock0 + SlangBlock1 + SlangBlock2 + SlangBlock3, SlangBlock4)
  {
    SlangBlocksApart04();
    SlangBlocksApart14();
    SlangBlocksApart24();
    SlangBlocksApart34();
    JoinApart(SlangBlock0, SlangBlock1, SlangBlock4);
    JoinApart(SlangBlock0 + SlangBlock1, SlangBlock2, SlangBlock4);
    JoinApart(SlangBlock0 + SlangBlock1 + SlangBlock2, SlangBlock3, SlangBlock4);
  }

  /** Block 5 shares no key with the blocks before it. */
  lemma SlangPrefixApart5()
    ensures KeysApart(SlangBlock0 + SlangBlock1 + SlangBlock2 + SlangBlock3 + SlangBlock4, SlangBlock5)
  {
    SlangBlocksApart05();
    SlangBlocksApart15();
    SlangBlocksApart25();
    SlangBlocksApart35();
    SlangBlocksApart45();
    JoinApart(SlangBlock0, SlangBlock1, SlangBlock5);
    JoinApart(SlangBlock0 + SlangBlock1, SlangBlock2, SlangBlock5);
    JoinApart(SlangBlock0 + SlangBlock1 + SlangBlock2, SlangBlock3, SlangBlock5);
    JoinApart(SlangBlock0 + SlangBlock1 + SlangBlock2 + SlangBlock3, SlangBlock4, SlangBlock5);
  }

  /** Block 6 shares no key with the blocks before it. */
  lemma SlangPrefixApart6()
    ensures KeysApart(SlangBlock0 + SlangBlock1 + SlangBlock2 + SlangBlock3 + SlangBlock4 + SlangBlock5, SlangBlock6)
  {
    SlangBlocksApart06();
    SlangBlocksApart16();
    SlangBlocksApart26();
    SlangBlocksApart36();
    SlangBlocksApart46();
    SlangBlocksApart56();
    JoinApart(SlangBlock0, SlangBlock1, SlangBlock6);
    JoinApart(SlangBlock0 + SlangBlock1, SlangBlock2, SlangBlock6);
    JoinApart(SlangBlock0 + SlangBlock1 + SlangBlock2, SlangBlock3, SlangBlock6);
    JoinApart(SlangBlock0 + SlangBlock1 + SlangBlock2 + SlangBlock3, SlangBlock4, SlangBlock6);
    JoinApart(SlangBlock0 + SlangBlock1 + SlangBlock2 + SlangBlock3 + SlangBlock4, SlangBlock5, SlangBlock6);
  }

  /** Block 7 shares no key with the blocks before it. */
  lemma SlangPrefixApart7()
    ensures KeysApart(SlangBlock0 + SlangBlock1 + SlangBlock2 + SlangBlock3 + SlangBlock4 + SlangBlock5 + SlangBlock6, SlangBlock7)
  {
    SlangBlocksApart07();
    SlangBlocksApart17();
    SlangBlocksApart27();
    SlangBlocksApart37();
    SlangBlocksApart47();
    SlangBlocksApart57();
    SlangBlocksApart67();
    JoinApart(SlangBlock0, SlangBlock1, SlangBlock7);
    JoinApart(SlangBlock0 + SlangBlock1, SlangBlock2, SlangBlock7);
    JoinApart(SlangBlock0 + SlangBlock1 + SlangBlock2, SlangBlock3, SlangBlock7);
    JoinApart(SlangBlock0 + SlangBlock1 + SlangBlock2 + SlangBlock3, SlangBlock4, SlangBlock7);
    JoinApart(SlangBlock0 + SlangBlock1 + SlangBlock2 + SlangBlock3 + SlangBlock4, SlangBlock5, SlangBlock7);
    JoinApart(SlangBlock0 + SlangBlock1 + SlangBlock2 + SlangBlock3 + SlangBlock4 + SlangBlock5, SlangBlock6, SlangBlock7);
  }

  /** Block 8 shares no key with the blocks before it. */
  lemma SlangPrefixApart8()
    ensures KeysApart(SlangBlock0 + SlangBlock1 + SlangBlock2 + SlangBlock3 + SlangBlock4 + SlangBlock5 + SlangBlock6 + SlangBlock7, SlangBlock8)
  {
    SlangBlocksApart08();
    SlangBlocksApart18();
    SlangBlocksApart28();
    SlangBlocksApart38();
    SlangBlocksApart48();
    SlangBlocksApart58();
    SlangBlocksApart68();
    SlangBlocksApart78();
    JoinApart(SlangBlock0, SlangBlock1, SlangBlock8);
    JoinApart(SlangBlock0 + SlangBlock1, SlangBlock2, SlangBlock8);
    JoinApart(SlangBlock0 + SlangBlock1 + SlangBlock2, SlangBlock3, SlangBlock8);
    JoinApart(SlangBlock0 + SlangBlock1 + SlangBlock2 + SlangBlock3, SlangBlock4, SlangBlock8);
    JoinApart(SlangBlock0 + SlangBlock1 + SlangBlock2 + SlangBlock3 + SlangBlock4, SlangBlock5, SlangBlock8);
    JoinApart(SlangBlock0 + SlangBlock1 + SlangBlock2 + SlangBlock3 + SlangBlock4 + SlangBlock5, SlangBlock6, SlangBlock8);
    JoinApart(SlangBlock0 + SlangBlock1 + SlangBlock2 + SlangBlock3 + SlangBlock4 + SlangBlock5 + SlangBlock6, SlangBlock7, SlangBlock8);
  }

  /** The first 2 blocks have distinct keys and no empty column. */
  lemma SlangPrefixWellFormed1()
    ensures DistinctKeys(SlangBlock0 + SlangBlock1)
    ensures AllFilled(SlangBlock0 + SlangBlock1)
  {
    SlangBlockDistinct0();
    SlangBlockFilled0();
    SlangBlockDistinct1();
    SlangBlockFilled1();
    SlangPrefixApart1();
    JoinDistinct(SlangBlock0, SlangBlock1);
    JoinFilled(SlangBlock0, SlangBlock1);
  }

  /** The first 3 blocks have distinct keys and no empty column. */
  lemma SlangPrefixWellFormed2()
    ensures DistinctKeys(SlangBlock0 + SlangBlock1 + SlangBlock2)
    ensures AllFilled(SlangBlock0 + SlangBlock1 + SlangBlock2)
  {
    SlangPrefixWellFormed1();
    SlangBlockDistinct2();
    SlangBlockFilled2();
    SlangPrefixApart2();
    JoinDistinct(SlangBlock0 + SlangBlock1, SlangBlock2);
    JoinFilled(SlangBlock0 + SlangBlock1, SlangBlock2);
  }

  /** The first 4 blocks have distinct keys and no empty column. */
  lemma SlangPrefixWellFormed3()
    ensures DistinctKeys(SlangBlock0 + SlangBlock1 + SlangBlock2 + SlangBlock3)
    ensures AllFilled(SlangBlock0 + SlangBlock1 + SlangBlock2 + SlangBlock3)
  {
    SlangPrefixWellFormed2();
    SlangBlockDistinct3();
    SlangBlockFilled3();
    SlangPrefixApart3();
    JoinDistinct(SlangBlock0 + SlangBlock1 + SlangBlock2, SlangBlock3);
    JoinFilled(SlangBlock0 + SlangBlock1 + SlangBlock2, SlangBlock3);
  }

  /** The first 5 blocks have distinct keys and no empty column. */
  lemma SlangPrefixWellFormed4()
    ensures DistinctKeys(SlangBlock0 + SlangBlock1 + SlangBlock2 + SlangBlock3 + SlangBlock4)
    ensures AllFilled(SlangBlock0 + SlangBlock1 + SlangBlock2 + SlangBlock3 + SlangBlock4)
  {
    SlangPrefixWellFormed3();
    SlangBlockDistinct4();
    SlangBlockFilled4();
    SlangPrefixApart4();
    JoinDistinct(SlangBlock0 + SlangBlock1 + SlangBlock2 + SlangBlock3, SlangBlock4);
    JoinFilled(SlangBlock0 + SlangBlock1 + SlangBlock2 + SlangBlock3, SlangBlock4);
  }

  /** The first 6 blocks have distinct keys and no empty column. */
  lemma SlangPrefixWellFormed5()
    ensures DistinctKeys(SlangBlock0 + SlangBlock1 + SlangBlock2 + SlangBlock3 + SlangBlock4 + SlangBlock5)
    ensures AllFilled(SlangBlock0 + SlangBlock1 + SlangBlock2 + SlangBlock3 + SlangBlock4 + SlangBlock5)
  {
    SlangPrefixWellFormed4();
    SlangBlockDistinct5();
    SlangBlockFilled5();
    SlangPrefixApart5();
    JoinDistinct(SlangBlock0 + SlangBlock1 + SlangBlock2 + SlangBlock3 + SlangBlock4, SlangBlock5);
    JoinFilled(SlangBlock0 + SlangBlock1 + SlangBlock2 + SlangBlock3 + SlangBlock4, SlangBlock5);
  }

  /** The first 7 blocks have distinct keys and no empty column. */
  lemma SlangPrefixWellFormed6()
    ensures DistinctKeys(SlangBlock0 + SlangBlock1 + SlangBlock2 + SlangBlock3 + SlangBlock4 + SlangBlock5 + SlangBlock6)
    ensures AllFilled(SlangBlock0 + SlangBlock1 + SlangBlock2 + SlangBlock3 + SlangBlock4 + SlangBlock5 + SlangBlock6)
  {
    SlangPrefixWellFormed5();
    SlangBlockDistinct6();
    SlangBlockFilled6();
    SlangPrefixApart6();
    JoinDistinct(SlangBlock0 + SlangBlock1 + SlangBlock2 + SlangBlock3 + SlangBlock4 + SlangBlock5, SlangBlock6);
    JoinFilled(SlangBlock0 + SlangBlock1 + SlangBlock2 + SlangBlock3 + SlangBlock4 + SlangBlock5, SlangBlock6);
  }

  /** The first 8 blocks have distinct keys and no empty column. */
  lemma SlangPrefixWellFormed7()
    ensures DistinctKeys(SlangBlock0 + SlangBlock1 + SlangBlock2 + SlangBlock3 + SlangBlock4 + SlangBlock5 + SlangBlock6 + SlangBlock7)
    ensures AllFilled(SlangBlock0 + SlangBlock1 + SlangBlock2 + SlangBlock3 + SlangBlock4 + SlangBlock5 + SlangBlock6 + SlangBlock7)
  {
    SlangPrefixWellFormed6();
    SlangBlockDistinct7();
    SlangBlockFilled7();
    SlangPrefixApart7();
    JoinDistinct(SlangBlock0 + SlangBlock1 + SlangBlock2 + SlangBlock3 + SlangBlock4 + SlangBlock5 + SlangBlock6, SlangBlock7);
    JoinFilled(SlangBlock0 + SlangBlock1 + SlangBlock2 + SlangBlock3 + SlangBlock4 + SlangBlock5 + SlangBlock6, SlangBlock7);
  }

  /** The first 9 blocks have distinct keys and no empty column. */
  lemma SlangPrefixWellFormed8()
    ensures DistinctKeys(SlangBlock0 + SlangBlock1 + SlangBlock2 + SlangBlock3 + SlangBlock4 + SlangBlock5 + SlangBlock6 + SlangBlock7 + SlangBlock8)
    ensures AllFilled(SlangBlock0 + SlangBlock1 + SlangBlock2 + SlangBlock3 + SlangBlock4 + SlangBlock5 + SlangBlock6 + SlangBlock7 + SlangBlock8)
  {
    SlangPrefixWellFormed7();
    SlangBlockDistinct8();
    SlangBlockFilled8();
    SlangPrefixApart8();
    JoinDistinct(SlangBlock0 + SlangBlock1 + SlangBlock2 + SlangBlock3 + SlangBlock4 + SlangBlock5 + SlangBlock6 + SlangBlock7, SlangBlock8);
    JoinFilled(SlangBlock0 + SlangBlock1 + SlangBlock2 + SlangBlock3 + SlangBlock4 + SlangBlock5 + SlangBlock6 + SlangBlock7, SlangBlock8);
  }

  /** Sites are numbered 1, 2, 3, ... in table order, and every site is active. */
  lemma SitesNumbered()
    ensures |Sites| == 26
    ensures forall i :: 0 <= i < |Sites| ==> Sites[i].id == i + 1 && Sites[i].active
  {
  }
}
