/** src/pages/HomePage.jsx: the featured products picked from the catalogue
    response and the rotating testimonial. The 5-second interval itself is
    left out; its step is `NextTestimonial`. */
module HomePage {
  import opened Common
  import opened Entities

  /** Number of entries in the `testimonials` table. */
  const TestimonialCount := 3
  /** Number of featured products shown. */
  const FeaturedCount := 8

  /** The shapes `GET /api/products` may answer with: a page object whose
      `content` is truthy, a bare array, or anything else (including a
      page object without `content`, and `null`). */
  datatype ProductsResponse = Paginated(content: seq<Product>) | PlainArray(items: seq<Product>) | OtherShape

  /** `slice(0, 8)` */
  function FirstFeatured(s: seq<Product>): (r: seq<Product>)
    ensures |r| == if |s| < FeaturedCount then |s| else FeaturedCount
    ensures r <= s
  {
    if |s| <= FeaturedCount then s else s[..FeaturedCount]
  }

  /** `(prev + 1) % testimonials.length` */
  function NextTestimonial(prev: nat): (next: nat)
    ensures 0 <= next < TestimonialCount
    ensures 0 <= prev < TestimonialCount - 1 ==> next == prev + 1
    ensures prev == TestimonialCount - 1 ==> next == 0
  {
    (prev + 1) % TestimonialCount
  }

  /** The index after `k` interval steps: from a valid index, `k` steps
      land on `(start + k) mod 3`, so from the first testimonial on `k mod 3`. */
  function Rotate(start: nat, k: nat): (r: nat)
    ensures k > 0 ==> r < TestimonialCount
    ensures start < TestimonialCount ==> r == (start + k) % TestimonialCount
  {
    if k == 0 then start else NextTestimonial(Rotate(start, k - 1))
  }

  /** `wishlistIds.has(product.id)` */
  predicate IsWishlisted(wishlistIds: set<int>, p: Product)
  {
    p.id in wishlistIds
  }

  /** When `wishlistIds` mirrors the wishlist, a card shows as wishlisted
      exactly when some wishlist entry has the card's id. */
  lemma WishlistedIffListed(w: seq<WishEntry>, p: Product)
    ensures IsWishlisted(WishIds(w), p) <==> exists i :: 0 <= i < |w| && w[i].id == p.id
  {
    if exists i :: 0 <= i < |w| && w[i].id == p.id {
      var i :| 0 <= i < |w| && w[i].id == p.id;
      assert w[i] in w;
    }
  }

  class Home {
    var products: seq<Product>
    var loading: bool
    var currentTestimonial: nat

    constructor ()
      ensures products == [] && loading && currentTestimonial == 0
    {
      products, loading, currentTestimonial := [], true, 0;
    }

    /** The testimonial index stays a valid index into the table. */
    predicate Valid()
      reads this
    {
      0 <= currentTestimonial < TestimonialCount
    }

    /** `fetchProducts`: the featured products come from `content` for a
        page, from the array itself for a bare array, and otherwise (or on a
        failed request, `None`) stay as they were; loading ends on every path. */
    method FetchProducts(response: Option<ProductsResponse>)
      modifies this`products, this`loading
      ensures !loading
      ensures response == Some(OtherShape) || response.None? ==> products == old(products)
      ensures response.Some? && response.value.Paginated? ==> products == FirstFeatured(response.value.content)
      ensures response.Some? && response.value.PlainArray? ==> products == FirstFeatured(response.value.items)
    {
      if response.Some? {
        match response.value
        case Paginated(content) => products := FirstFeatured(content);
        case PlainArray(items) => products := FirstFeatured(items);
        case OtherShape =>
      }
      loading := false;
    }

    /** One firing of the testimonial interval. */
    method AdvanceTestimonial()
      modifies this`currentTestimonial
      ensures currentTestimonial == NextTestimonial(old(currentTestimonial))
      ensures Valid()
    {
      currentTestimonial := NextTestimonial(currentTestimonial);
    }
  }
}
