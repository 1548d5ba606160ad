/**
 * The comparison page store: a counter, a message, an optional user, a
 * theme, a loading flag, and a log of the last ten actions, each stamped
 * with the local time at which it was recorded (a parameter here).
 */
module ComparisonPageStore {
  import opened Wrappers
  import opened Strings
  import opened JsArrays

  const MaxHistory := 10
  const InitialMessage := "欢迎使用 Zustand 状态管理！"
  const NoUser := "未设置用户"
  /** How many characters of a new message its history entry quotes. */
  const MessagePreviewLength := 20

  datatype Theme = Light | Dark
  datatype User = User(name: string, age: int)
  datatype CounterStatus = Negative | Zero | Positive

  function ThemeName(t: Theme): string
  {
    match t
    case Light => "light"
    case Dark => "dark"
  }

  /** The other theme. */
  function Toggled(t: Theme): (r: Theme)
    ensures r != t
  {
    if t == Light then Dark else Light
  }

  /** Toggling twice restores the theme. */
  lemma ToggleTwice(t: Theme)
    ensures Toggled(Toggled(t)) == t
  {
  }

  /** A log line: `[time] action`. */
  function HistoryEntry(time: string, action: string): (entry: string)
    ensures |entry| == |time| + |action| + 3
    ensures entry[0] == '[' && entry[1..|time| + 1] == time && entry[|time| + 1..|time| + 3] == "] "
    ensures entry[|time| + 3..] == action
  {
    "[" + time + "] " + action
  }

  /** `[...history.slice(-9), entry]`: the newest nine lines in order, then the new one. */
  function Logged(history: seq<string>, entry: string): (r: seq<string>)
    ensures |r| == Min(|history|, MaxHistory - 1) + 1 && |r| <= MaxHistory
    ensures r[|r| - 1] == entry
    ensures r[..|r| - 1] == history[|history| - (|r| - 1)..]
  {
    SliceLast(history, MaxHistory - 1);
    SliceFrom(history, -(MaxHistory - 1)) + [entry]
  }

  /** While there is room, logging only appends. */
  lemma LoggedBelowCap(history: seq<string>, entry: string)
    requires |history| < MaxHistory
    ensures Logged(history, entry) == history + [entry]
  {
    var r := Logged(history, entry);
    assert r == r[..|r| - 1] + [r[|r| - 1]];
  }

  /** `getCounterStatus`. */
  function CounterStatusOf(counter: int): (s: CounterStatus)
    ensures s == Negative <==> counter < 0
    ensures s == Zero <==> counter == 0
    ensures s == Positive <==> counter > 0
  {
    if counter < 0 then Negative else if counter == 0 then Zero else Positive
  }

  /** `getUserInfo`: `name (age岁)` for a user, a fixed notice without one. */
  function UserInfo(user: Option<User>): (s: string)
    ensures user.None? ==> s == NoUser
    ensures user.Some? ==> s == user.value.name + " (" + IntToString(user.value.age) + "岁)"
  {
    match user
    case None => NoUser
    case Some(u) => u.name + " (" + IntToString(u.age) + "岁)"
  }

  /** Two users with the same name are told apart by their info exactly when their ages differ. */
  lemma UserInfoDistinguishesAges(name: string, a: int, b: int)
    ensures UserInfo(Some(User(name, a))) != UserInfo(Some(User(name, b))) <==> a != b
  {
    if a == b {
      return;
    }
    var p := name + " (";
    var sa := UserInfo(Some(User(name, a)));
    var sb := UserInfo(Some(User(name, b)));
    IntToStringInjective(a, b);
    if |IntToString(a)| == |IntToString(b)| {
      assert sa[|p|..|p| + |IntToString(a)|] == IntToString(a);
      assert sb[|p|..|p| + |IntToString(b)|] == IntToString(b);
    } else {
      assert |sa| != |sb|;
    }
  }

  class Store {
    var counter: int
    var message: string
    var user: Option<User>
    var theme: Theme
    var isLoading: bool
    var history: seq<string>

    ghost predicate Valid()
      reads this
    {
      |history| <= MaxHistory
    }

    constructor ()
      ensures Valid()
      ensures counter == 0 && message == InitialMessage && user == None && theme == Light
      ensures !isLoading && history == []
    {
      counter := 0;
      message := InitialMessage;
      user := None;
      theme := Light;
      isLoading := false;
      history := [];
    }

    /** `addToHistory`: one stamped line is logged. */
    method AddToHistory(time: string, action: string)
      modifies this`history
      ensures Valid()
      ensures history == Logged(old(history), HistoryEntry(time, action))
    {
      history := Logged(history, HistoryEntry(time, action));
    }

    method Increment(time: string)
      modifies this`counter, this`history
      ensures Valid()
      ensures counter == old(counter) + 1
      ensures history == Logged(old(history), HistoryEntry(time, "计数器递增至 " + IntToString(counter)))
    {
      counter := counter + 1;
      AddToHistory(time, "计数器递增至 " + IntToString(counter));
    }

    method Decrement(time: string)
      modifies this`counter, this`history
      ensures Valid()
      ensures counter == old(counter) - 1
      ensures history == Logged(old(history), HistoryEntry(time, "计数器递减至 " + IntToString(counter)))
    {
      counter := counter - 1;
      AddToHistory(time, "计数器递减至 " + IntToString(counter));
    }

    method ResetCounter(time: string)
      modifies this`counter, this`history
      ensures Valid()
      ensures counter == 0
      ensures history == Logged(old(history), HistoryEntry(time, "计数器重置为 0"))
    {
      counter := 0;
      AddToHistory(time, "计数器重置为 0");
    }

    method SetCounter(value: int, time: string)
      modifies this`counter, this`history
      ensures Valid()
      ensures counter == value
      ensures history == Logged(old(history), HistoryEntry(time, "计数器设置为 " + IntToString(value)))
    {
      counter := value;
      AddToHistory(time, "计数器设置为 " + IntToString(value));
    }

    /** `setMessage`: the log quotes the first twenty characters of the message. */
    method SetMessage(newMessage: string, time: string)
      modifies this`message, this`history
      ensures Valid()
      ensures message == newMessage
      ensures history == Logged(old(history),
        HistoryEntry(time, "消息更新: " + newMessage[..Min(|newMessage|, MessagePreviewLength)] + "..."))
    {
      message := newMessage;
      AddToHistory(time, "消息更新: " + newMessage[..Min(|newMessage|, MessagePreviewLength)] + "...");
    }

    method ClearMessage(time: string)
      modifies this`message, this`history
      ensures Valid()
      ensures message == ""
      ensures history == Logged(old(history), HistoryEntry(time, "消息已清空"))
    {
      message := "";
      AddToHistory(time, "消息已清空");
    }

    method SetUser(newUser: User, time: string)
      modifies this`user, this`history
      ensures Valid()
      ensures user == Some(newUser)
      ensures history == Logged(old(history),
        HistoryEntry(time, "用户设置: " + newUser.name + ", " + IntToString(newUser.age) + "岁"))
    {
      user := Some(newUser);
      AddToHistory(time, "用户设置: " + newUser.name + ", " + IntToString(newUser.age) + "岁");
    }

    method ClearUser(time: string)
      modifies this`user, this`history
      ensures Valid()
      ensures user == None
      ensures history == Logged(old(history), HistoryEntry(time, "用户信息已清空"))
    {
      user := None;
      AddToHistory(time, "用户信息已清空");
    }

    /** `updateUserAge`: without a user nothing changes, not even the log; otherwise only the age does. */
    method UpdateUserAge(age: int, time: string)
      requires Valid()
      modifies this`user, this`history
      ensures Valid()
      ensures old(user).None? ==> user == None && history == old(history)
      ensures old(user).Some? ==>
        && user == Some(User(old(user).value.name, age))
        && history == Logged(old(history), HistoryEntry(time, "用户年龄更新为 " + IntToString(age) + "岁"))
    {
      if user.Some? {
        user := Some(user.value.(age := age));
        AddToHistory(time, "用户年龄更新为 " + IntToString(age) + "岁");
      }
    }

    method ToggleTheme(time: string)
      modifies this`theme, this`history
      ensures Valid()
      ensures theme == Toggled(old(theme))
      ensures history == Logged(old(history), HistoryEntry(time, "主题切换为 " + ThemeName(theme)))
    {
      theme := Toggled(theme);
      AddToHistory(time, "主题切换为 " + ThemeName(theme));
    }

    method SetTheme(newTheme: Theme, time: string)
      modifies this`theme, this`history
      ensures Valid()
      ensures theme == newTheme
      ensures history == Logged(old(history), HistoryEntry(time, "主题设置为 " + ThemeName(newTheme)))
    {
      theme := newTheme;
      AddToHistory(time, "主题设置为 " + ThemeName(newTheme));
    }

    /** `setLoading` logs nothing. */
    method SetLoading(value: bool)
      modifies this`isLoading
      ensures isLoading == value
    {
      isLoading := value;
    }

    method ClearHistory()
      modifies this`history
      ensures Valid() && history == []
    {
      history := [];
    }

    /**
     * `performComplexAction`, whose body cannot fail: loading on and a start
     * line; then the counter grows by 10, the message carries the time read
     * when the state is set, an asynchronous user of age 20 to 69 is set, a
     * success line stamped by its own (later) reading is logged, and loading
     * goes off.
     */
    method PerformComplexAction(startTime: string, messageTime: string, endTime: string, ageDraw: nat)
      requires Valid()
      modifies this
      ensures Valid()
      ensures counter == old(counter) + 10 && !isLoading
      ensures message == "复杂操作完成！时间: " + messageTime
      ensures user.Some? && user.value.name == "异步用户" && 20 <= user.value.age < 70
      ensures theme == old(theme)
      ensures history == Logged(Logged(old(history), HistoryEntry(startTime, "开始执行复杂操作...")),
        HistoryEntry(endTime, "复杂操作执行成功"))
    {
      ghost var started := Logged(history, HistoryEntry(startTime, "开始执行复杂操作..."));
      SetLoading(true);
      AddToHistory(startTime, "开始执行复杂操作...");
      assert history == started;
      counter := counter + 10;
      message := "复杂操作完成！时间: " + messageTime;
      user := Some(User("异步用户", ageDraw % 50 + 20));
      AddToHistory(endTime, "复杂操作执行成功");
      SetLoading(false);
    }

    function GetCounterStatus(): (s: CounterStatus)
      reads this
      ensures s == Negative <==> counter < 0
      ensures s == Zero <==> counter == 0
      ensures s == Positive <==> counter > 0
    {
      CounterStatusOf(counter)
    }

    function GetHistoryCount(): (n: nat)
      reads this
      ensures n == |history|
    {
      |history|
    }

    function GetUserInfo(): (s: string)
      reads this
      ensures user.None? <==> s == NoUser
    {
      UserInfoOfUserIsNotNotice(user);
      UserInfo(user)
    }
  }

  /** The info of a user never reads as the no-user notice, which has no parenthesis. */
  lemma UserInfoOfUserIsNotNotice(user: Option<User>)
    ensures user.Some? ==> UserInfo(user) != NoUser
  {
    if user.Some? {
      var s := UserInfo(user);
      var k := |user.value.name|;
      assert s[k + 1] == '(';
      assert forall i :: 0 <= i < |NoUser| ==> NoUser[i] != '(';
    }
  }
}
