/** The public blog page (app/blog/page.tsx): its category filter and newsletter form. */
module BlogPage {
  import Seqs

  /** A listed post. */
  datatype Post = Post(id: int, title: string, author: string, category: string)

  /** The category that selects every post, and the page's initial selection. */
  const AllCategories: string := "All"

  /** The category buttons, in display order. */
  const Categories: seq<string> := [
    AllCategories, "Fashion & Beauty", "Agriculture & Food", "Technology", "Trade & Logistics", "Business"]

  /** The posts the page lists. */
  const Posts: seq<Post> := [
    Post(1, "The Future of Sustainable Fashion", "Sarah Johnson", "Fashion & Beauty"),
    Post(2, "Digital Transformation in Agriculture", "Michael Chen", "Agriculture & Food"),
    Post(3, "Cloud Computing Trends for 2024", "Emily Rodriguez", "Technology"),
    Post(4, "Global Trade in a Connected World", "David Kim", "Trade & Logistics")]

  /**
   * `filteredPosts`: every post under `All`, otherwise exactly the posts of the
   * selected category, in their original order.
   */
  function FilterPosts(posts: seq<Post>, selected: string): (r: seq<Post>)
    ensures Seqs.IsSubseq(r, posts)
    ensures selected == AllCategories ==> r == posts
    ensures forall p :: p in r <==> p in posts && (selected == AllCategories || p.category == selected)
    ensures forall p ::
      multiset(r)[p] == (if selected == AllCategories || p.category == selected then multiset(posts)[p] else 0)
  {
    var keep := (p: Post) => selected == AllCategories || p.category == selected;
    Seqs.FilterMembership(keep, posts);
    if selected == AllCategories then
      Seqs.FilterKeepsAll(keep, posts);
      Seqs.Filter(keep, posts)
    else
      Seqs.Filter(keep, posts)
  }

  /** `Business` is offered as a category, but no listed post carries it. */
  lemma BusinessListsNothing()
    ensures "Business" in Categories
    ensures FilterPosts(Posts, "Business") == []
  {
    assert Categories[5] == "Business";
    var keep := (p: Post) => "Business" == AllCategories || p.category == "Business";
    forall i | 0 <= i < |Posts| ensures !keep(Posts[i]) {
    }
    Seqs.FilterDropsAll(keep, Posts);
  }

  /** The newsletter form's status. */
  datatype SubscribeStatus = Idle | Success | Error

  class BlogPageState {
    var selectedCategory: string
    var email: string
    var subscribeStatus: SubscribeStatus

    constructor ()
      ensures selectedCategory == AllCategories && email == "" && subscribeStatus == Idle
    {
      selectedCategory := AllCategories;
      email := "";
      subscribeStatus := Idle;
    }

    /** The posts on screen: all of them under `All`, otherwise only posts of the selected category. */
    function Visible(): (r: seq<Post>)
      reads this
      ensures selectedCategory == AllCategories ==> r == Posts
      ensures forall p :: p in r <==> p in Posts && (selectedCategory == AllCategories || p.category == selectedCategory)
      ensures forall p ::
        multiset(r)[p] == (if selectedCategory == AllCategories || p.category == selectedCategory then multiset(Posts)[p] else 0)
    {
      FilterPosts(Posts, selectedCategory)
    }

    /** A category button. */
    method SelectCategory(category: string)
      modifies this`selectedCategory
      ensures selectedCategory == category
    {
      selectedCategory := category;
    }

    /** `handleNewsletterSubmit`: always succeeds and clears the address; nothing is sent. */
    method NewsletterSubmit()
      modifies this`email, this`subscribeStatus
      ensures subscribeStatus == Success && email == ""
    {
      subscribeStatus := Success;
      email := "";
    }
  }
}
