/**
 * The vocabulary cards: a fixed table of one hundred words in ten
 * categories, a category filter, previous/next navigation over the filtered
 * list, and cards that flip between the English and the Chinese side.
 */
module WordsLearning {
  import opened Sequences

  datatype Word = Word(id: int, english: string, chinese: string, pronunciation: string, category: string)

  /** The label of the button that shows every word. */
  const AllLabel := "All"

  /** `Object.keys(categoryEmojis)`, in declaration order. */
  const CategoryNames: seq<string> :=
    ["Fruits", "Vegetables", "Food", "Animals", "Places", "Colors", "Numbers", "Body", "Nature", "Objects"]

  /** The emoji of each category, parallel to `CategoryNames`. */
  const CategoryEmojis: seq<string> :=
    ["🍎", "🥕", "🍽️", "🐶", "🏠", "🎨", "🔢", "👋", "🌳", "🎁"]

  /** The emoji used for a label that has none, "All" among them. */
  const DefaultEmoji := "📌"

  /** Words 1 to 10, category "Fruits". */
  const FruitWords: seq<Word> := [
    Word(1, "Apple", "苹果", "AP-ul", "Fruits"),
    Word(2, "Banana", "香蕉", "buh-NAN-uh", "Fruits"),
    Word(3, "Orange", "橙子", "OR-inj", "Fruits"),
    Word(4, "Strawberry", "草莓", "STRAW-ber-ee", "Fruits"),
    Word(5, "Watermelon", "西瓜", "WO-ter-mel-un", "Fruits"),
    Word(6, "Grape", "葡萄", "GRAYP", "Fruits"),
    Word(7, "Lemon", "柠檬", "LEM-un", "Fruits"),
    Word(8, "Mango", "芒果", "MANG-go", "Fruits"),
    Word(9, "Pear", "梨", "PAIR", "Fruits"),
    Word(10, "Peach", "桃子", "PEECH", "Fruits")
  ]

  /** Words 11 to 20, category "Vegetables". */
  const VegetableWords: seq<Word> := [
    Word(11, "Carrot", "胡萝卜", "KAR-ut", "Vegetables"),
    Word(12, "Tomato", "番茄", "tuh-MAH-to", "Vegetables"),
    Word(13, "Potato", "土豆", "puh-TAY-to", "Vegetables"),
    Word(14, "Broccoli", "西兰花", "BROK-uh-lee", "Vegetables"),
    Word(15, "Cabbage", "卷心菜", "KAB-ij", "Vegetables"),
    Word(16, "Cucumber", "黄瓜", "KYO-kum-ber", "Vegetables"),
    Word(17, "Lettuce", "生菜", "LET-us", "Vegetables"),
    Word(18, "Onion", "洋葱", "UN-yun", "Vegetables"),
    Word(19, "Pepper", "辣椒", "PEP-er", "Vegetables"),
    Word(20, "Corn", "玉米", "KORN", "Vegetables")
  ]

  /** Words 21 to 30, category "Food". */
  const FoodWords: seq<Word> := [
    Word(21, "Bread", "面包", "BRED", "Food"),
    Word(22, "Rice", "米饭", "RYS", "Food"),
    Word(23, "Milk", "牛奶", "MILK", "Food"),
    Word(24, "Cheese", "奶酪", "CHEEZ", "Food"),
    Word(25, "Egg", "鸡蛋", "EG", "Food"),
    Word(26, "Chicken", "鸡肉", "CHIK-un", "Food"),
    Word(27, "Fish", "鱼", "FISH", "Food"),
    Word(28, "Meat", "肉", "MEET", "Food"),
    Word(29, "Soup", "汤", "SOOP", "Food"),
    Word(30, "Noodle", "面条", "NOO-dul", "Food")
  ]

  /** Words 31 to 40, category "Animals". */
  const AnimalWords: seq<Word> := [
    Word(31, "Cat", "猫", "KAT", "Animals"),
    Word(32, "Dog", "狗", "DOG", "Animals"),
    Word(33, "Bird", "鸟", "BERD", "Animals"),
    Word(34, "Fish", "鱼", "FISH", "Animals"),
    Word(35, "Elephant", "大象", "EL-uh-funt", "Animals"),
    Word(36, "Lion", "狮子", "LY-un", "Animals"),
    Word(37, "Tiger", "老虎", "TY-ger", "Animals"),
    Word(38, "Monkey", "猴子", "MUN-kee", "Animals"),
    Word(39, "Rabbit", "兔子", "RAB-it", "Animals"),
    Word(40, "Bear", "熊", "BAIR", "Animals")
  ]

  /** Words 41 to 50, category "Places". */
  const PlaceWords: seq<Word> := [
    Word(41, "House", "房子", "HOUS", "Places"),
    Word(42, "School", "学校", "SKOOL", "Places"),
    Word(43, "Park", "公园", "PARK", "Places"),
    Word(44, "Beach", "海滩", "BEECH", "Places"),
    Word(45, "Mountain", "山", "MOUN-tin", "Places"),
    Word(46, "River", "河", "RIV-er", "Places"),
    Word(47, "Forest", "森林", "FOR-ist", "Places"),
    Word(48, "City", "城市", "SIT-ee", "Places"),
    Word(49, "Hospital", "医院", "HOS-pit-ul", "Places"),
    Word(50, "Library", "图书馆", "LY-brer-ee", "Places")
  ]

  /** Words 51 to 60, category "Colors". */
  const ColorWords: seq<Word> := [
    Word(51, "Red", "红色", "RED", "Colors"),
    Word(52, "Blue", "蓝色", "BLOO", "Colors"),
    Word(53, "Yellow", "黄色", "YEL-o", "Colors"),
    Word(54, "Green", "绿色", "GREEN", "Colors"),
    Word(55, "Purple", "紫色", "PER-pul", "Colors"),
    Word(56, "Orange", "橙色", "OR-inj", "Colors"),
    Word(57, "Pink", "粉红色", "PINGK", "Colors"),
    Word(58, "Black", "黑色", "BLACK", "Colors"),
    Word(59, "White", "白色", "HWYT", "Colors"),
    Word(60, "Brown", "棕色", "BROWN", "Colors")
  ]

  /** Words 61 to 70, category "Numbers". */
  const NumberWords: seq<Word> := [
    Word(61, "One", "一", "WUN", "Numbers"),
    Word(62, "Two", "二", "TOO", "Numbers"),
    Word(63, "Three", "三", "THREE", "Numbers"),
    Word(64, "Four", "四", "FOR", "Numbers"),
    Word(65, "Five", "五", "FYV", "Numbers"),
    Word(66, "Six", "六", "SIKS", "Numbers"),
    Word(67, "Seven", "七", "SEV-un", "Numbers"),
    Word(68, "Eight", "八", "AYT", "Numbers"),
    Word(69, "Nine", "九", "NYN", "Numbers"),
    Word(70, "Ten", "十", "TEN", "Numbers")
  ]

  /** Words 71 to 80, category "Body". */
  const BodyWords: seq<Word> := [
    Word(71, "Head", "头", "HED", "Body"),
    Word(72, "Eye", "眼睛", "Y", "Body"),
    Word(73, "Nose", "鼻子", "NOZ", "Body"),
    Word(74, "Mouth", "嘴", "MOUTH", "Body"),
    Word(75, "Ear", "耳朵", "EER", "Body"),
    Word(76, "Hand", "手", "HAND", "Body"),
    Word(77, "Foot", "脚", "FOOT", "Body"),
    Word(78, "Arm", "胳膊", "ARM", "Body"),
    Word(79, "Leg", "腿", "LEG", "Body"),
    Word(80, "Tooth", "牙齿", "TOOTH", "Body")
  ]

  /** Words 81 to 90, category "Nature". */
  const NatureWords: seq<Word> := [
    Word(81, "Sun", "太阳", "SUN", "Nature"),
    Word(82, "Moon", "月亮", "MOON", "Nature"),
    Word(83, "Star", "星星", "STAR", "Nature"),
    Word(84, "Cloud", "云", "KLOUD", "Nature"),
    Word(85, "Rain", "雨", "RAYN", "Nature"),
    Word(86, "Snow", "雪", "SNO", "Nature"),
    Word(87, "Wind", "风", "WIND", "Nature"),
    Word(88, "Tree", "树", "TREE", "Nature"),
    Word(89, "Flower", "花", "FLOW-er", "Nature"),
    Word(90, "Grass", "草", "GRAS", "Nature")
  ]

  /** Words 91 to 100, category "Objects". */
  const ObjectWords: seq<Word> := [
    Word(91, "Toy", "玩具", "TOY", "Objects"),
    Word(92, "Ball", "球", "BAWL", "Objects"),
    Word(93, "Book", "书", "BOOK", "Objects"),
    Word(94, "Pen", "笔", "PEN", "Objects"),
    Word(95, "Pencil", "铅笔", "PEN-sul", "Objects"),
    Word(96, "Chair", "椅子", "CHAIR", "Objects"),
    Word(97, "Table", "桌子", "TAY-bul", "Objects"),
    Word(98, "Door", "门", "DOR", "Objects"),
    Word(99, "Window", "窗户", "WIN-do", "Objects"),
    Word(100, "Clock", "钟", "KLOK", "Objects")
  ]
  /** The table, block by block in the order the words are listed. */
  const WordBlocks: seq<seq<Word>> :=
    [FruitWords, VegetableWords, FoodWords, AnimalWords, PlaceWords,
     ColorWords, NumberWords, BodyWords, NatureWords, ObjectWords]

  function Flatten(bs: seq<seq<Word>>): seq<Word>
  {
    if bs == [] then [] else Flatten(bs[..|bs| - 1]) + bs[|bs| - 1]
  }

  /** `wordsData` */
  const WordsData: seq<Word> := Flatten(WordBlocks)

  /** Block `k` holds ten words, numbered on from `10 * k`, all in category `CategoryNames[k]`. */
  predicate IsBlock(b: seq<Word>, k: int)
    requires 0 <= k < |CategoryNames|
  {
    && |b| == 10
    && forall j | 0 <= j < 10 :: b[j].id == 10 * k + j + 1 && b[j].category == CategoryNames[k]
  }

  lemma FirstBlocks()
    ensures IsBlock(FruitWords, 0) && IsBlock(VegetableWords, 1) && IsBlock(FoodWords, 2)
  {
  }

  lemma MiddleBlocks()
    ensures IsBlock(AnimalWords, 3) && IsBlock(PlaceWords, 4) && IsBlock(ColorWords, 5)
  {
  }

  lemma LastBlocks()
    ensures IsBlock(NumberWords, 6) && IsBlock(BodyWords, 7) && IsBlock(NatureWords, 8) && IsBlock(ObjectWords, 9)
  {
  }

  lemma AllBlocks()
    ensures |WordBlocks| == |CategoryNames| == 10
    ensures forall k | 0 <= k < 10 :: IsBlock(WordBlocks[k], k)
  {
    FirstBlocks();
    MiddleBlocks();
    LastBlocks();
  }

  /** Position `10 * k + j` of the flattened table is word `j` of block `k`. */
  lemma {:induction false} FlattenIndex(bs: seq<seq<Word>>)
    requires forall k | 0 <= k < |bs| :: |bs[k]| == 10
    ensures |Flatten(bs)| == 10 * |bs|
    ensures forall k, j | 0 <= k < |bs| && 0 <= j < 10 :: Flatten(bs)[10 * k + j] == bs[k][j]
    decreases |bs|
  {
    if bs != [] {
      var n := |bs| - 1;
      FlattenIndex(bs[..n]);
      var front := Flatten(bs[..n]);
      forall k, j | 0 <= k < |bs| && 0 <= j < 10 ensures Flatten(bs)[10 * k + j] == bs[k][j] {
        if k < n {
          assert bs[..n][k] == bs[k];
          assert Flatten(bs)[10 * k + j] == front[10 * k + j];
        } else {
          assert Flatten(bs)[10 * k + j] == bs[n][j];
        }
      }
    }
  }

  /** The table holds words 1 to 100, word `i + 1` at position `i`, ten per category in category order. */
  lemma WordsTable()
    ensures |WordsData| == 100
    ensures forall i | 0 <= i < 100 :: WordsData[i].id == i + 1 && WordsData[i].category == CategoryNames[i / 10]
  {
    AllBlocks();
    FlattenIndex(WordBlocks);
    forall i | 0 <= i < 100 ensures WordsData[i].id == i + 1 && WordsData[i].category == CategoryNames[i / 10] {
      TensAndUnits(i);
      assert WordsData[i] == WordBlocks[i / 10][i % 10];
    }
  }

  lemma TensAndUnits(i: int)
    requires 0 <= i < 100
    ensures 0 <= i / 10 < 10 && 0 <= i % 10 < 10 && i == 10 * (i / 10) + i % 10
  {
  }

  /** No two words share an id. */
  lemma WordIdsDistinct()
    ensures forall i, j | 0 <= i < j < |WordsData| :: WordsData[i].id != WordsData[j].id
  {
    WordsTable();
  }

  // ---------------------------------------------------------------------------
  // Filtering by category
  // ---------------------------------------------------------------------------

  /** `wordsData.filter(word => word.category === category)` */
  function Filter(words: seq<Word>, category: string): (r: seq<Word>)
    ensures forall w :: w in r <==> w in words && w.category == category
    ensures IsSubsequence(r, words)
    decreases |words|
  {
    if words == [] then EmptyIsSubsequence(words); []
    else
      var n := |words| - 1;
      var x := words[n];
      var kept := Filter(words[..n], category);
      assert words == words[..n] + [x];
      SubsequenceSnocIf(kept, words[..n], x, x.category == category);
      kept + (if x.category == category then [x] else [])
  }

  /** `filteredWords` over the table `words`: all of it for "All", otherwise the words of that category in table order. */
  function FilteredWords(words: seq<Word>, selected: string): (r: seq<Word>)
    ensures selected == AllLabel ==> r == words
    ensures selected != AllLabel ==> forall w :: w in r <==> w in words && w.category == selected
    ensures IsSubsequence(r, words)
  {
    if selected == AllLabel then
      assert Embeds(seq(|words|, i => i), words, words);
      words
    else Filter(words, selected)
  }

  lemma FilterSnoc(s: seq<Word>, x: Word, c: string)
    ensures Filter(s + [x], c) == Filter(s, c) + (if x.category == c then [x] else [])
  {
    assert (s + [x])[..|s|] == s;
  }

  lemma {:induction false} FilterAppend(a: seq<Word>, b: seq<Word>, c: string)
    ensures Filter(a + b, c) == Filter(a, c) + Filter(b, c)
    decreases |b|
  {
    if b == [] {
      assert a + b == a;
    } else {
      var n := |b| - 1;
      assert a + b == (a + b[..n]) + [b[n]];
      assert b == b[..n] + [b[n]];
      FilterSnoc(a + b[..n], b[n], c);
      FilterSnoc(b[..n], b[n], c);
      FilterAppend(a, b[..n], c);
    }
  }

  lemma {:induction false} FilterBlock(b: seq<Word>, c: string, blockCategory: string)
    requires forall j | 0 <= j < |b| :: b[j].category == blockCategory
    ensures Filter(b, c) == if c == blockCategory then b else []
    decreases |b|
  {
    if b != [] {
      var n := |b| - 1;
      assert b == b[..n] + [b[n]];
      FilterBlock(b[..n], c, blockCategory);
    }
  }

  /** Every word of block `k` is in category `cats[k]`. */
  ghost predicate BlocksIn(bs: seq<seq<Word>>, cats: seq<string>)
  {
    && |bs| == |cats|
    && forall k, j | 0 <= k < |bs| && 0 <= j < |bs[k]| :: bs[k][j].category == cats[k]
  }

  lemma BlocksInPrefix(bs: seq<seq<Word>>, cats: seq<string>, n: int)
    requires BlocksIn(bs, cats) && 0 <= n <= |bs|
    ensures BlocksIn(bs[..n], cats[..n])
  {
  }

  /** A category that labels no block filters the blocks to nothing. */
  lemma {:induction false} FilterAbsent(bs: seq<seq<Word>>, cats: seq<string>, c: string)
    requires BlocksIn(bs, cats) && c !in cats
    ensures Filter(Flatten(bs), c) == []
    decreases |bs|
  {
    if bs != [] {
      var n := |bs| - 1;
      BlocksInPrefix(bs, cats, n);
      assert c !in cats[..n] && c != cats[n];
      FilterAbsent(bs[..n], cats[..n], c);
      FilterAppend(Flatten(bs[..n]), bs[n], c);
      FilterBlock(bs[n], c, cats[n]);
    }
  }

  /** With distinct block labels, filtering by a block's label gives back that block. */
  lemma {:induction false} FilterBlocks(bs: seq<seq<Word>>, cats: seq<string>, k: int)
    requires BlocksIn(bs, cats) && Distinct(cats) && 0 <= k < |bs|
    ensures Filter(Flatten(bs), cats[k]) == bs[k]
    decreases |bs|
  {
    var n := |bs| - 1;
    var c := cats[k];
    BlocksInPrefix(bs, cats, n);
    FilterAppend(Flatten(bs[..n]), bs[n], c);
    FilterBlock(bs[n], c, cats[n]);
    if k == n {
      assert c !in cats[..n];
      FilterAbsent(bs[..n], cats[..n], c);
      assert [] + bs[n] == bs[n];
    } else {
      assert cats[..n][k] == c && bs[..n][k] == bs[k];
      FilterBlocks(bs[..n], cats[..n], k);
      assert c != cats[n];
      assert bs[k] + [] == bs[k];
    }
  }

  /** Each of the ten category buttons shows exactly its own block of ten words. */
  lemma CategoryFilterIsBlock(k: int)
    requires 0 <= k < 10
    ensures FilteredWords(WordsData, CategoryNames[k]) == WordBlocks[k]
    ensures |FilteredWords(WordsData, CategoryNames[k])| == 10
  {
    AllBlocks();
    assert Distinct(Categories()[1..]);
    assert Categories()[1..] == CategoryNames;
    FilterBlocks(WordBlocks, CategoryNames, k);
  }

  /** A label that is not a category of the table shows no word. */
  lemma UnknownCategoryIsEmpty(selected: string)
    requires selected != AllLabel && selected !in CategoryNames
    ensures FilteredWords(WordsData, selected) == []
  {
    AllBlocks();
    FilterAbsent(WordBlocks, CategoryNames, selected);
  }

  /** `['All', ...Object.keys(categoryEmojis)]` */
  function Categories(): (r: seq<string>)
    ensures |r| == 11 && r[0] == AllLabel && Distinct(r)
    ensures r[1..] == CategoryNames
  {
    [AllLabel] + CategoryNames
  }

  lemma CategoryNamesDistinct()
    ensures Distinct(CategoryNames) && |CategoryNames| == |CategoryEmojis|
  {
  }

  /** `categoryEmojis[category] || '📌'` */
  function EmojiFor(category: string): (e: string)
    ensures forall k | 0 <= k < |CategoryNames| && CategoryNames[k] == category :: e == CategoryEmojis[k]
    ensures category !in CategoryNames ==> e == DefaultEmoji
  {
    CategoryNamesDistinct();
    EmojiIn(CategoryNames, CategoryEmojis, category)
  }

  /** Looks `category` up among the keys `names` of an object whose values are `emojis`. */
  function EmojiIn(names: seq<string>, emojis: seq<string>, category: string): (e: string)
    requires |names| == |emojis| && Distinct(names)
    ensures forall k | 0 <= k < |names| && names[k] == category :: e == emojis[k]
    ensures category !in names ==> e == DefaultEmoji
  {
    if names == [] then DefaultEmoji
    else if names[0] == category then emojis[0]
    else
      assert forall k | 1 <= k < |names| :: names[k] == names[1..][k - 1] && emojis[k] == emojis[1..][k - 1];
      EmojiIn(names[1..], emojis[1..], category)
  }

  // ---------------------------------------------------------------------------
  // Navigation and flipping
  // ---------------------------------------------------------------------------

  /** The index a list of `len` words may stand at: 0 when the list is empty. */
  predicate InRange(i: int, len: int)
  {
    0 <= i && (i < len || i == 0)
  }

  /** `goNext`'s index: one on, unless already at the last word. */
  function Next(i: int, len: int): (r: int)
    ensures InRange(i, len) ==> InRange(r, len)
    ensures r == i || r == i + 1
    ensures r == i + 1 <==> i < len - 1
  {
    if i < len - 1 then i + 1 else i
  }

  /** `goPrev`'s index: one back, unless already at the first word. */
  function Prev(i: int): (r: int)
    ensures forall len :: InRange(i, len) ==> InRange(r, len)
    ensures r == i || r == i - 1
    ensures r == i - 1 <==> i > 0
  {
    if i > 0 then i - 1 else i
  }

  /** Back undoes forward whenever forward moved, and forward undoes back. */
  lemma NextPrevInverse(i: int, len: int)
    requires InRange(i, len)
    ensures Next(i, len) != i ==> Prev(Next(i, len)) == i
    ensures Prev(i) != i ==> Next(Prev(i), len) == i
  {
  }

  /** `steps` presses of the next button. */
  function Forward(i: int, len: int, steps: nat): int
    decreases steps
  {
    if steps == 0 then i else Forward(Next(i, len), len, steps - 1)
  }

  /** From the first card, `steps` presses of next reach card `steps`, stopping at the last one. */
  lemma {:induction false} ForwardFromStart(len: int, steps: nat, i: int)
    requires 0 < len && 0 <= i < len
    ensures Forward(i, len, steps) == if i + steps < len then i + steps else len - 1
    decreases steps
  {
    if steps > 0 {
      ForwardFromStart(len, steps - 1, Next(i, len));
    }
  }

  /** `flipped[id]`, an absent id counting as not flipped. */
  function IsFlipped(flipped: map<int, bool>, id: int): bool
  {
    id in flipped && flipped[id]
  }

  /** `{ ...flipped, [id]: !flipped[id] }` */
  function Toggle(flipped: map<int, bool>, id: int): (r: map<int, bool>)
    ensures IsFlipped(r, id) == !IsFlipped(flipped, id)
    ensures forall other | other != id :: IsFlipped(r, other) == IsFlipped(flipped, other)
  {
    flipped[id := !IsFlipped(flipped, id)]
  }

  /** Flipping a card twice shows every card as before. */
  lemma ToggleTwice(flipped: map<int, bool>, id: int)
    ensures forall x :: IsFlipped(Toggle(Toggle(flipped, id), id), x) == IsFlipped(flipped, x)
  {
  }

  /** The screen's state, updated in place by its buttons. */
  class WordCards {
    /** The word table the screen shows, `wordsData`. */
    const table: seq<Word>
    var selectedCategory: string
    var currentIndex: int
    var flipped: map<int, bool>

    /** The index stays within the filtered list. */
    ghost predicate Valid()
      reads this
    {
      InRange(currentIndex, |FilteredWords(table, selectedCategory)|)
    }

    constructor ()
      ensures Valid() && table == WordsData
      ensures selectedCategory == AllLabel && currentIndex == 0 && flipped == map[]
    {
      table := WordsData;
      selectedCategory := AllLabel;
      currentIndex := 0;
      flipped := map[];
    }

    /** `filteredWords[currentIndex]`, absent when the list is empty. */
    function CurrentWord(): (w: Option<Word>)
      reads this
      requires Valid()
      ensures w.None? <==> FilteredWords(table, selectedCategory) == []
      ensures w.Some? ==> w.value in FilteredWords(table, selectedCategory)
      ensures w.Some? ==> w.value == FilteredWords(table, selectedCategory)[currentIndex]
    {
      var words := FilteredWords(table, selectedCategory);
      if currentIndex < |words| then Some(words[currentIndex]) else None
    }

    method GoNext()
      requires Valid()
      modifies this
      ensures Valid() && selectedCategory == old(selectedCategory)
      ensures currentIndex == Next(old(currentIndex), |FilteredWords(table, selectedCategory)|)
      ensures flipped == if currentIndex != old(currentIndex) then map[] else old(flipped)
    {
      var words := FilteredWords(table, selectedCategory);
      if currentIndex < |words| - 1 {
        currentIndex := currentIndex + 1;
        flipped := map[];
      }
    }

    method GoPrev()
      requires Valid()
      modifies this
      ensures Valid() && selectedCategory == old(selectedCategory)
      ensures currentIndex == Prev(old(currentIndex))
      ensures flipped == if currentIndex != old(currentIndex) then map[] else old(flipped)
    {
      if currentIndex > 0 {
        currentIndex := currentIndex - 1;
        flipped := map[];
      }
    }

    /** A category button: show that category from its first word, all cards face up. */
    method SelectCategory(category: string)
      modifies this
      ensures Valid()
      ensures selectedCategory == category && currentIndex == 0 && flipped == map[]
    {
      selectedCategory := category;
      currentIndex := 0;
      flipped := map[];
    }

    /** A click on the card turns over the current word; with no current word there is no card. */
    method FlipCard()
      requires Valid()
      modifies this
      ensures Valid() && selectedCategory == old(selectedCategory) && currentIndex == old(currentIndex)
      ensures flipped == if CurrentWord().Some? then Toggle(old(flipped), CurrentWord().value.id) else old(flipped)
    {
      var current := CurrentWord();
      if current.Some? {
        flipped := Toggle(flipped, current.value.id);
      }
      assert CurrentWord() == current;
    }
  }
}
