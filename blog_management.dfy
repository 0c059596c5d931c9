/** The blog management page: the slug generated from a title, the post form with its
    reset and its filling from an existing post, and the page state that saves and
    deletes posts. Each blog API call's outcome is an input. */
module BlogManagement {
  import opened Base
  import opened Text

  /** A character the slug keeps: `[a-z0-9]`. */
  predicate IsSlugChar(c: char)
  {
    ('a' <= c <= 'z') || ('0' <= c <= '9')
  }

  /** The slug characters of a string, in order. */
  function SlugChars(s: string): (r: string)
    ensures |r| <= |s|
    ensures forall i :: 0 <= i < |r| ==> IsSlugChar(r[i])
  {
    if s == [] then []
    else if IsSlugChar(s[0]) then [s[0]] + SlugChars(s[1..])
    else SlugChars(s[1..])
  }

  lemma {:induction false} SlugCharsAppend(a: string, b: string)
    ensures SlugChars(a + b) == SlugChars(a) + SlugChars(b)
  {
    if a == [] {
      assert a + b == b;
    } else {
      assert (a + b)[1..] == a[1..] + b;
      SlugCharsAppend(a[1..], b);
    }
  }

  /** A string has no slug characters exactly when none of its characters is one. */
  lemma {:induction false} SlugCharsEmptyIff(s: string)
    ensures SlugChars(s) == [] <==> forall i :: 0 <= i < |s| ==> !IsSlugChar(s[i])
  {
    if s != [] {
      SlugCharsEmptyIff(s[1..]);
      if SlugChars(s) == [] {
        forall i | 0 <= i < |s|
          ensures !IsSlugChar(s[i])
        {
          if i > 0 {
            assert s[i] == s[1..][i - 1];
          }
        }
      }
    }
  }

  /** No '-' directly follows another. */
  predicate NoDoubleDash(s: string)
  {
    forall i :: 0 <= i < |s| - 1 ==> !(s[i] == '-' && s[i + 1] == '-')
  }

  /** The shape of a generated slug: slug characters and single dashes, neither end a dash. */
  predicate SlugShape(s: string)
  {
    && (forall i :: 0 <= i < |s| ==> IsSlugChar(s[i]) || s[i] == '-')
    && NoDoubleDash(s)
    && (s != [] ==> s[0] != '-' && s[|s| - 1] != '-')
  }

  /** Skip the leading run of characters outside `[a-z0-9]`. */
  function DropNonSlug(s: string): (r: string)
    ensures |r| <= |s|
    ensures r == [] || IsSlugChar(r[0])
    ensures SlugChars(r) == SlugChars(s)
  {
    if s == [] || IsSlugChar(s[0]) then s else DropNonSlug(s[1..])
  }

  /** `replace(/[^a-z0-9]+/g, '-')`: each maximal run of other characters becomes one '-'. */
  function CollapseRuns(s: string): (r: string)
    ensures forall i :: 0 <= i < |r| ==> IsSlugChar(r[i]) || r[i] == '-'
    ensures NoDoubleDash(r)
    ensures SlugChars(r) == SlugChars(s)
    ensures r == [] <==> s == []
    ensures s != [] && IsSlugChar(s[0]) ==> r[0] == s[0]
    decreases |s|
  {
    if s == [] then []
    else if IsSlugChar(s[0]) then
      var rest := CollapseRuns(s[1..]);
      assert ([s[0]] + rest)[1..] == rest;
      [s[0]] + rest
    else
      var rest := CollapseRuns(DropNonSlug(s[1..]));
      assert ("-" + rest)[1..] == rest;
      "-" + rest
  }

  /** `replace(/(^-|-$)/g, '')`: drop one '-' at the start and one at the end. */
  function StripDashes(s: string): (r: string)
    ensures SlugChars(r) == SlugChars(s)
    ensures (forall i :: 0 <= i < |s| ==> IsSlugChar(s[i]) || s[i] == '-') && NoDoubleDash(s) ==> SlugShape(r)
    ensures s == [] || (s[0] != '-' && s[|s| - 1] != '-') ==> r == s
  {
    var t := if s != [] && s[0] == '-' then s[1..] else s;
    assert SlugChars(t) == SlugChars(s) by {
      if s != [] && s[0] == '-' {
        assert s == "-" + t;
        SlugCharsAppend("-", t);
      }
    }
    if t != [] && t[|t| - 1] == '-' then
      assert t == t[..|t| - 1] + "-";
      SlugCharsAppend(t[..|t| - 1], "-");
      t[..|t| - 1]
    else t
  }

  /** `generateSlug`: lower-case, collapse every run of other characters to one '-', then
      drop a '-' at either end. */
  function GenerateSlug(title: string): (slug: string)
    ensures SlugShape(slug)
    ensures SlugChars(slug) == SlugChars(Lower(title))
  {
    StripDashes(CollapseRuns(Lower(title)))
  }

  /** A string already in slug shape passes the run replacement unchanged. */
  lemma {:induction false} CollapseRunsKeeps(s: string)
    requires forall i :: 0 <= i < |s| ==> IsSlugChar(s[i]) || s[i] == '-'
    requires NoDoubleDash(s)
    requires s != [] ==> s[|s| - 1] != '-'
    ensures CollapseRuns(s) == s
    decreases |s|
  {
    if s != [] {
      if IsSlugChar(s[0]) {
        CollapseRunsKeeps(s[1..]);
      } else {
        assert IsSlugChar(s[1]);
        CollapseRunsKeeps(s[1..]);
      }
    }
  }

  /** Every character of `s` is one the slug keeps. */
  predicate AllSlug(s: string)
  {
    forall i :: 0 <= i < |s| ==> IsSlugChar(s[i])
  }

  /** No character of `s` is one the slug keeps. */
  predicate NoSlug(s: string)
  {
    forall i :: 0 <= i < |s| ==> !IsSlugChar(s[i])
  }

  lemma {:induction false} DropNonSlugSkips(w: string, b: string)
    requires NoSlug(w) && (b == [] || IsSlugChar(b[0]))
    ensures DropNonSlug(w + b) == b
  {
    if w == [] {
      assert w + b == b;
    } else {
      assert (w + b)[1..] == w[1..] + b;
      DropNonSlugSkips(w[1..], b);
    }
  }

  /** Where the dashes go: a run of kept characters passes unchanged, and the run of other
      characters after it becomes exactly one '-' in its place, before whatever follows. */
  lemma {:induction false} CollapseRunsSplit(u: string, w: string, b: string)
    requires AllSlug(u) && w != [] && NoSlug(w) && (b == [] || IsSlugChar(b[0]))
    ensures CollapseRuns(u + w + b) == u + "-" + CollapseRuns(b)
  {
    var s := u + w + b;
    if u == [] {
      assert s == w + b && !IsSlugChar(s[0]);
      assert s[1..] == w[1..] + b;
      DropNonSlugSkips(w[1..], b);
      assert CollapseRuns(s) == "-" + CollapseRuns(b);
      assert u + "-" + CollapseRuns(b) == "-" + CollapseRuns(b);
    } else {
      assert s[0] == u[0] && IsSlugChar(s[0]);
      assert s[1..] == u[1..] + w + b;
      CollapseRunsSplit(u[1..], w, b);
      assert CollapseRuns(s) == [u[0]] + CollapseRuns(s[1..]);
      assert u + "-" + CollapseRuns(b) == [u[0]] + (u[1..] + "-" + CollapseRuns(b));
    }
  }

  /** Two words of letters and digits joined by any run of other characters give the two
      words joined by one '-': the title "a b" has the slug "a-b". */
  lemma SlugOfTwoWords(u: string, w: string, v: string)
    requires u != [] && AllSlug(u) && v != [] && AllSlug(v)
    requires w != [] && forall i :: 0 <= i < |w| ==> !IsSlugChar(LowerChar(w[i]))
    ensures GenerateSlug(u + w + v) == u + "-" + v
  {
    LowerAroundWords(u, w, v);
    CollapseRunsSplit(u, Lower(w), v);
    CollapseRunsKeeps(v);
    var c := u + "-" + v;
    assert c[0] == u[0] && c[|c| - 1] == v[|v| - 1];
  }

  /** Lower-casing leaves words of slug characters alone and turns a separator with no
      slug character after lower-casing into one with none. */
  lemma LowerAroundWords(u: string, w: string, v: string)
    requires AllSlug(u) && AllSlug(v)
    requires forall i :: 0 <= i < |w| ==> !IsSlugChar(LowerChar(w[i]))
    ensures Lower(u + w + v) == u + Lower(w) + v
    ensures NoSlug(Lower(w))
  {
    var s := u + w + v;
    var t := u + Lower(w) + v;
    assert |Lower(s)| == |t|;
    forall i | 0 <= i < |s|
      ensures Lower(s)[i] == t[i]
    {
      if i < |u| {
        assert s[i] == u[i] && t[i] == u[i];
      } else if i < |u| + |w| {
        assert s[i] == w[i - |u|] && t[i] == Lower(w)[i - |u|];
      } else {
        assert s[i] == v[i - |u| - |w|] && t[i] == v[i - |u| - |w|];
      }
    }
  }

  /** Generating a slug from a slug gives it back. */
  lemma SlugIdempotent(title: string)
    ensures GenerateSlug(GenerateSlug(title)) == GenerateSlug(title)
  {
    var s := GenerateSlug(title);
    assert Lower(s) == s;
    CollapseRunsKeeps(s);
  }

  /** The slug is empty exactly when the lower-cased title has no letter `a-z` or digit;
      otherwise those letters and digits are the slug's, in their order. */
  lemma SlugEmptyIff(title: string)
    ensures GenerateSlug(title) == [] <==> forall i :: 0 <= i < |title| ==> !IsSlugChar(LowerChar(title[i]))
  {
    var s := GenerateSlug(title);
    SlugCharsEmptyIff(s);
    SlugCharsEmptyIff(Lower(title));
    if s != [] {
      assert IsSlugChar(s[0]);
    }
  }

  /** A post as the page reads it; excerpt and image may be missing. */
  datatype BlogPost = BlogPost(
    id: string,
    title: string,
    slug: string,
    excerpt: Option<string>,
    content: string,
    categoryId: string,
    status: string,
    isFeatured: bool,
    readingTimeMinutes: int,
    featuredImageUrl: Option<string>)

  /** The post form. */
  datatype PostForm = PostForm(
    title: string,
    slug: string,
    excerpt: string,
    content: string,
    categoryId: string,
    status: string,
    isFeatured: bool,
    readingTimeMinutes: int,
    featuredImageUrl: string)

  /** The form at first and after `resetForm`. */
  const EmptyPostForm: PostForm := PostForm("", "", "", "", "", "draft", false, 5, "")

  /** `handleTitleChange`'s updater: the title and its slug change, nothing else. */
  function TitleChange(form: PostForm, title: string): (r: PostForm)
    ensures r.title == title && r.slug == GenerateSlug(title)
    ensures SlugShape(r.slug) && SlugChars(r.slug) == SlugChars(Lower(title))
    ensures r.(title := form.title, slug := form.slug) == form
  {
    form.(title := title, slug := GenerateSlug(title))
  }

  /** The form `openEditModal` fills from a post: a missing excerpt or image becomes ''. */
  function EditForm(post: BlogPost): (r: PostForm)
    ensures r.excerpt == OrStr(post.excerpt, "") && r.featuredImageUrl == OrStr(post.featuredImageUrl, "")
    ensures r.title == post.title && r.slug == post.slug && r.content == post.content
    ensures r.categoryId == post.categoryId && r.status == post.status
    ensures r.isFeatured == post.isFeatured && r.readingTimeMinutes == post.readingTimeMinutes
  {
    PostForm(post.title, post.slug, OrStr(post.excerpt, ""), post.content, post.categoryId,
             post.status, post.isFeatured, post.readingTimeMinutes, OrStr(post.featuredImageUrl, ""))
  }

  /** Editing a post's title twice, or retyping its slug-derived title, settles: a title
      change on a form whose title is a slug keeps that slug. */
  lemma TitleChangeSettles(form: PostForm, title: string)
    ensures TitleChange(TitleChange(form, title), title) == TitleChange(form, title)
    ensures TitleChange(form, GenerateSlug(title)).slug == GenerateSlug(title)
  {
    SlugIdempotent(title);
  }

  /** The reading-time field: `parseInt(value) || 5`. */
  function ReadingTime(value: string): (minutes: int)
    ensures minutes != 0
    ensures ParseInt(value).None? ==> minutes == 5
    ensures ParseInt(value) == Some(0) ==> minutes == 5
    ensures ParseInt(value).Some? && ParseInt(value).value != 0 ==> minutes == ParseInt(value).value
  {
    OrInt(ParseInt(value), 5)
  }

  /** The status badge's variant. */
  function StatusVariant(status: string): (variant: string)
    ensures variant == "success" <==> status == "published"
    ensures variant == "warning" <==> status == "draft"
    ensures variant == "default" <==> status != "published" && status != "draft"
  {
    if status == "published" then "success" else if status == "draft" then "warning" else "default"
  }

  /** A save the page asks the blog API for. */
  datatype SaveRequest = UpdatePost(id: string, form: PostForm) | CreatePost(form: PostForm, authorId: string)

  /** The author id the page sends with every new post. */
  const PlaceholderAuthor: string := "current-user-id"

  /** The request `handleSubmit` makes: an update of the post being edited, otherwise a
      creation under the placeholder author. */
  function SaveFor(editingPost: Option<BlogPost>, form: PostForm): (r: SaveRequest)
    ensures r.form == form
    ensures r.UpdatePost? <==> editingPost.Some?
    ensures r.UpdatePost? ==> r.id == editingPost.value.id
    ensures r.CreatePost? ==> r.authorId == PlaceholderAuthor
  {
    match editingPost
    case Some(p) => UpdatePost(p.id, form)
    case None => CreatePost(form, PlaceholderAuthor)
  }

  /** The page's state, with the saves and deletions that succeeded. */
  class BlogView {
    var showModal: bool
    var editingPost: Option<BlogPost>
    var form: PostForm
    var saved: seq<SaveRequest>
    var deleted: seq<string>

    constructor ()
      ensures !showModal && editingPost == None && form == EmptyPostForm
      ensures saved == [] && deleted == []
    {
      showModal := false;
      editingPost := None;
      form := EmptyPostForm;
      saved := [];
      deleted := [];
    }

    /** `resetForm`. */
    method ResetForm()
      modifies this
      ensures form == EmptyPostForm && editingPost == None
      ensures showModal == old(showModal) && saved == old(saved) && deleted == old(deleted)
    {
      form := EmptyPostForm;
      editingPost := None;
    }

    /** The "New Post" button. */
    method OpenCreate()
      modifies this
      ensures showModal
      ensures form == old(form) && editingPost == old(editingPost)
      ensures saved == old(saved) && deleted == old(deleted)
    {
      showModal := true;
    }

    /** `openEditModal`. */
    method OpenEditModal(post: BlogPost)
      modifies this
      ensures editingPost == Some(post) && form == EditForm(post) && showModal
      ensures saved == old(saved) && deleted == old(deleted)
    {
      editingPost := Some(post);
      form := EditForm(post);
      showModal := true;
    }

    /** `handleTitleChange`. */
    method HandleTitleChange(title: string)
      modifies this
      ensures form == TitleChange(old(form), title)
      ensures showModal == old(showModal) && editingPost == old(editingPost)
      ensures saved == old(saved) && deleted == old(deleted)
    {
      form := TitleChange(form, title);
    }

    /** Closing the modal resets the form. */
    method Close()
      modifies this
      ensures !showModal && form == EmptyPostForm && editingPost == None
      ensures saved == old(saved) && deleted == old(deleted)
    {
      showModal := false;
      ResetForm();
    }

    /** `handleSubmit`: on success record the save, close and reset; on failure keep all. */
    method HandleSubmit(written: bool)
      modifies this
      ensures written ==> saved == old(saved) + [SaveFor(old(editingPost), old(form))]
      ensures written ==> !showModal && form == EmptyPostForm && editingPost == None
      ensures !written ==> saved == old(saved) && showModal == old(showModal)
      ensures !written ==> form == old(form) && editingPost == old(editingPost)
      ensures deleted == old(deleted)
    {
      if written {
        saved := saved + [SaveFor(editingPost, form)];
        Close();
      }
    }

    /** `handleDelete`: nothing unless confirmed; the deletion is recorded when it succeeds. */
    method HandleDelete(id: string, confirmed: bool, written: bool)
      modifies this
      ensures deleted == (if confirmed && written then old(deleted) + [id] else old(deleted))
      ensures showModal == old(showModal) && form == old(form)
      ensures editingPost == old(editingPost) && saved == old(saved)
    {
      if !confirmed {
        return;
      }
      if written {
        deleted := deleted + [id];
      }
    }
  }
}
